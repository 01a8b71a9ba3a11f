/**
 The ICMS loop: licence payloads go to HMRC in one file at a time, HMRC's replies are stored by run
 number, and a valid reply is passed on to ICMS. Sending and finalising are separate steps, and a
 sending may fail for good.
 */
module IcmsLoop {
  import opened Text
  import opened MailTables
  import opened MailWorkflow
  import LicenceReply

  // ---------------------------------------------------------------- replies taken in and passed on

  /** A message in HMRC's mailbox; any other than a licence reply makes the whole pass fail. */
  datatype Message = Reply(runNumber: nat, text: string) | AnyOther

  /** `_save_licence_reply_email`; `None` is an exception. */
  function ReplyStored(t: Tables, number: nat, text: string): Option<Tables> {
    var rows := LicencesNumbered(t.licences, number);
    if |rows| != 1 || rows[0].mail >= |t.mails| || t.mails[rows[0].mail].status != ReplyPending then None
    else Some(t.(mails := t.mails[rows[0].mail := t.mails[rows[0].mail].(status := ReplyReceived, response := Some(text))]))
  }

  function RepliesStored(t: Tables, messages: seq<Message>): Option<Tables>
    decreases |messages|
  {
    if messages == [] then Some(t)
    else if messages[0].AnyOther? then None
    else
      match ReplyStored(t, messages[0].runNumber, messages[0].text)
      case None => None
      case Some(u) => RepliesStored(u, messages[1..])
  }

  /** `process_licence_reply_and_usage_emails`: one transaction, rolled back on any exception. */
  function Taken(t: Tables, messages: seq<Message>): Tables {
    match RepliesStored(t, messages)
    case None => t
    case Some(u) => u
  }

  /** The stored reply is read without an exception and has no file errors and true trailer counts. */
  predicate Deliverable(m: Mail) {
    && m.response.Some?
    && LicenceReply.Process(m.response.value).Some?
    && LicenceReply.Valid(LicenceReply.Process(m.response.value).value) == Some(true)
  }

  /** The run number of the file header, as the database lookup reads it; `None` is an exception. */
  function HeaderNumber(s: LicenceReply.Reply): Option<int> {
    if s.header.Some? && s.header.value.FileHeader? then ParseInt(s.header.value.runNum) else None
  }

  /** The LicenceData row that `_get_licence_reply_data` looks up; `None` is an exception. */
  function CallbackRow(t: Tables, s: LicenceReply.Reply): Option<LicenceRow> {
    match HeaderNumber(s)
    case None => None
    case Some(number) =>
      var rows := if number < 0 then [] else LicencesNumbered(t.licences, number);
      if |rows| == 1 then Some(rows[0]) else None
  }

  /** `_get_licence_reply_data`; `None` is an exception. */
  function CallbackFor(t: Tables, s: LicenceReply.Reply): Option<LicenceReply.Callback> {
    match CallbackRow(t, s)
    case None => None
    case Some(row) => LicenceReply.LicenceReplyData(s, PayloadsAt(t.received, row.payloads))
  }

  /** A stored reply from which the callback can be built. */
  predicate Answerable(t: Tables, m: Mail) {
    Deliverable(m) && CallbackFor(t, LicenceReply.Process(m.response.value).value).Some?
  }

  /** `send_licence_data_to_icms`; `posted` says that ICMS accepted the callback. */
  function PassedOn(t: Tables, posted: bool): Result {
    var received := Positions(t.mails, LicenceDataWith(ReplyReceived));
    if received == [] then Done(t)
    else if |received| > 1 || !Answerable(t, t.mails[received[0]]) then Raised(t)
    else if !posted then Done(t)
    else Done(t.(mails := t.mails[received[0] := t.mails[received[0]].(status := ReplySent)]))
  }

  method SaveLicenceReplyEmail(w: Workflow, number: nat, text: string) returns (raised: bool)
    modifies w`mails
    ensures raised == ReplyStored(old(w.Value()), number, text).None?
    ensures w.Value() == if raised then old(w.Value()) else ReplyStored(old(w.Value()), number, text).value
  {
    var rows := LicencesNumbered(w.licences, number);
    if |rows| != 1 || rows[0].mail >= |w.mails| {
      return true;
    }
    var mail := w.mails[rows[0].mail];
    if mail.status != ReplyPending {
      return true;
    }
    mail := mail.(status := ReplyReceived);
    mail := mail.(response := Some(text));
    w.mails := w.mails[rows[0].mail := mail];
    return false;
  }

  method ProcessLicenceReplyAndUsageEmails(w: Workflow, messages: seq<Message>) returns (raised: bool)
    modifies w`mails
    ensures w.Value() == Taken(old(w.Value()), messages)
    ensures raised == RepliesStored(old(w.Value()), messages).None?
  {
    hide ReplyStored;
    var before := w.mails;
    raised := false;
    assert messages[0..] == messages;
    for i := 0 to |messages|
      invariant RepliesStored(w.Value(), messages[i..]) == RepliesStored(old(w.Value()), messages)
      invariant w.Value().(mails := before) == old(w.Value())
    {
      assert messages[i..][1..] == messages[i + 1..];
      raised := true;
      if messages[i].Reply? {
        raised := SaveLicenceReplyEmail(w, messages[i].runNumber, messages[i].text);
      }
      if raised {
        w.mails := before;
        return;
      }
    }
  }

  method SendLicenceDataToIcms(w: Workflow, posted: bool) returns (raised: bool)
    modifies w`mails
    ensures w.Value() == PassedOn(old(w.Value()), posted).tables
    ensures raised == PassedOn(old(w.Value()), posted).Raised?
  {
    var received := Positions(w.mails, LicenceDataWith(ReplyReceived));
    if |received| == 0 {
      return false;
    }
    if |received| > 1 {
      return true;
    }
    var mail := w.mails[received[0]];
    if !Deliverable(mail) {
      return true;
    }
    var callback := CallbackFor(w.Value(), LicenceReply.Process(mail.response.value).value);
    if callback.None? {
      return true;
    }
    if posted {
      mail := mail.(status := ReplySent);
      w.mails := w.mails[received[0] := mail];
    }
    return false;
  }

  // ---------------------------------------------------------------- runs

  datatype Event =
    | NewPayload(payload: LicenceReply.Payload)
    | Send(valid: bool)
    | Deliver(sending: nat)
    | GiveUp(sending: nat)
    | TakeIn(messages: seq<Message>)
    | PassOn(posted: bool)

  predicate Enabled(t: Tables, e: Event) {
    match e
    case Deliver(k) => k < |t.sendings| && t.sendings[k].mail < |t.mails|
    case GiveUp(k) => k < |t.sendings|
    case _ => true
  }

  function Next(t: Tables, e: Event): Tables
    requires Enabled(t, e)
  {
    match e
    case NewPayload(payload) => PayloadSaved(t, payload)
    case Send(valid) => LiteSent(t, valid)
    case Deliver(k) => Finalised(t, k)
    case GiveUp(k) => GivenUp(t, k)
    case TakeIn(messages) => Taken(t, messages)
    case PassOn(posted) => PassedOn(t, posted).tables
  }

  predicate Possible(t: Tables, events: seq<Event>)
    decreases |events|
  {
    events == [] || (Enabled(t, events[0]) && Possible(Next(t, events[0]), events[1..]))
  }

  function Run(t: Tables, events: seq<Event>): Tables
    requires Possible(t, events)
    decreases |events|
  {
    if events == [] then t else Run(Next(t, events[0]), events[1..])
  }

  // ---------------------------------------------------------------- what every run keeps

  /** Every mail has its own row, and the rows are numbered 1, 2, 3, ... */
  predicate Paired(t: Tables) {
    && |t.licences| == |t.mails|
    && forall k :: 0 <= k < |t.licences| ==> t.licences[k].mail == k && t.licences[k].hmrcRunNumber == k + 1
  }

  predicate MailGood(m: Mail) {
    && m.extractType == LicenceDataType
    && (m.status in ANSWERED ==> m.sent && m.response.Some?)
    && (m.status == ReplyPending ==> m.sent)
    && (m.status == ReplySent ==> Deliverable(m))
  }

  predicate OneAtATime(mails: seq<Mail>) {
    && (forall k :: 0 <= k < |mails| ==> MailGood(mails[k]))
    && (forall k :: 0 <= k < |mails| - 1 ==> mails[k].status == ReplySent)
  }

  predicate SendingOfLast(t: Tables) {
    t.sendings == []
    || (|t.mails| > 0 && |t.licences| == |t.mails| && t.mails[|t.mails| - 1].status == Pending
        && t.sendings == [LiteSending(|t.mails| - 1, t.licences[|t.mails| - 1].payloads)])
  }

  /** A file's payloads wait until it has been sent, and are processed from then on. */
  predicate PayloadsPlaced(t: Tables) {
    && |t.licences| == |t.mails|
    && t.waiting !! t.processed
    && (forall id :: id in t.waiting + t.processed ==> id < |t.received|)
    && (forall k :: 0 <= k < |t.licences| ==>
          if t.mails[k].status == Pending then t.licences[k].payloads <= t.waiting else t.licences[k].payloads <= t.processed)
    && (forall id :: id in t.processed ==> exists k :: 0 <= k < |t.licences| && id in t.licences[k].payloads)
  }

  predicate PayloadsInOneFile(rows: seq<LicenceRow>) {
    && (forall i, j :: 0 <= i < j < |rows| ==> rows[i].payloads !! rows[j].payloads)
    && (forall k :: 0 <= k < |rows| ==> rows[k].payloads != {})
  }

  predicate LoopInvariant(t: Tables) {
    Paired(t) && OneAtATime(t.mails) && SendingOfLast(t) && PayloadsPlaced(t) && PayloadsInOneFile(t.licences)
  }

  /** The last mail moves on from a status other than `pending`. */
  lemma MoveLast(t: Tables, m: Mail)
    requires LoopInvariant(t) && t.mails != [] && MailGood(m)
    requires t.mails[|t.mails| - 1].status != Pending && m.status != Pending
    ensures LoopInvariant(t.(mails := t.mails[|t.mails| - 1 := m]))
  {
    var last := |t.mails| - 1;
    var u := t.(mails := t.mails[last := m]);
    MovedMails(t.mails, m);
    MovedPayloads(t, m);
    LoopParts(t);
    MovedRest(t, m);
    hide *;
    LoopWhole(u);
  }

  lemma MovedRest(t: Tables, m: Mail)
    requires Paired(t) && SendingOfLast(t) && t.mails != [] && t.mails[|t.mails| - 1].status != Pending
    ensures Paired(t.(mails := t.mails[|t.mails| - 1 := m])) && SendingOfLast(t.(mails := t.mails[|t.mails| - 1 := m]))
  {
  }

  lemma MovedMails(mails: seq<Mail>, m: Mail)
    requires OneAtATime(mails) && mails != [] && MailGood(m)
    ensures OneAtATime(mails[|mails| - 1 := m])
  {
    hide MailGood;
  }

  lemma MovedPayloads(t: Tables, m: Mail)
    requires PayloadsPlaced(t) && t.mails != [] && t.mails[|t.mails| - 1].status != Pending && m.status != Pending
    ensures PayloadsPlaced(t.(mails := t.mails[|t.mails| - 1 := m]))
  {
  }

  lemma LoopParts(t: Tables)
    requires LoopInvariant(t)
    ensures Paired(t) && OneAtATime(t.mails) && SendingOfLast(t) && PayloadsPlaced(t) && PayloadsInOneFile(t.licences)
  {
    hide Paired, OneAtATime, SendingOfLast, PayloadsPlaced, PayloadsInOneFile;
  }

  lemma LoopWhole(t: Tables)
    requires Paired(t) && OneAtATime(t.mails) && SendingOfLast(t) && PayloadsPlaced(t) && PayloadsInOneFile(t.licences)
    ensures LoopInvariant(t)
  {
    hide Paired, OneAtATime, SendingOfLast, PayloadsPlaced, PayloadsInOneFile;
  }

  lemma {:induction false} NumberedFromOne(rows: seq<LicenceRow>, number: nat)
    requires forall k :: 0 <= k < |rows| ==> rows[k].hmrcRunNumber == k + 1
    ensures LicencesNumbered(rows, number) == if 1 <= number <= |rows| then [rows[number - 1]] else []
  {
    if rows != [] {
      NumberedFromOne(rows[..|rows| - 1], number);
    }
  }

  lemma ReplyStoredKeeps(t: Tables, number: nat, text: string)
    requires LoopInvariant(t) && ReplyStored(t, number, text).Some?
    ensures LoopInvariant(ReplyStored(t, number, text).value)
  {
    hide PayloadsPlaced, PayloadsInOneFile, SendingOfLast, Deliverable;
    NumberedFromOne(t.licences, number);
    var m := LicencesNumbered(t.licences, number)[0].mail;
    assert m == |t.mails| - 1;
    assert MailGood(t.mails[m]);
    MoveLast(t, t.mails[m].(status := ReplyReceived, response := Some(text)));
  }

  lemma {:induction false} RepliesStoredKeeps(t: Tables, messages: seq<Message>)
    requires LoopInvariant(t) && RepliesStored(t, messages).Some?
    ensures LoopInvariant(RepliesStored(t, messages).value)
    decreases |messages|
  {
    hide LoopInvariant, ReplyStored;
    if messages != [] {
      ReplyStoredKeeps(t, messages[0].runNumber, messages[0].text);
      RepliesStoredKeeps(ReplyStored(t, messages[0].runNumber, messages[0].text).value, messages[1..]);
    }
  }

  lemma OneReceived(t: Tables)
    requires LoopInvariant(t)
    ensures |Positions(t.mails, LicenceDataWith(ReplyReceived))| <= 1
  {
    PositionsAtMostOne(t.mails, LicenceDataWith(ReplyReceived));
  }

  lemma PassedOnKeeps(t: Tables, posted: bool)
    requires LoopInvariant(t)
    ensures LoopInvariant(PassedOn(t, posted).tables)
  {
    hide PayloadsPlaced, PayloadsInOneFile, SendingOfLast, Deliverable, CallbackFor;
    OneReceived(t);
    var received := Positions(t.mails, LicenceDataWith(ReplyReceived));
    if received != [] && Answerable(t, t.mails[received[0]]) && posted {
      var m := received[0];
      assert LicenceDataWith(ReplyReceived)(t.mails[m]) && MailGood(t.mails[m]);
      assert m == |t.mails| - 1;
      SameReply(t.mails[m], ReplySent);
      MoveLast(t, t.mails[m].(status := ReplySent));
    }
  }

  lemma SameReply(m: Mail, status: Status)
    ensures Deliverable(m.(status := status)) == Deliverable(m)
  {
  }

  lemma NextNumberCounts(t: Tables)
    requires Paired(t)
    ensures NextLiteNumber(t.licences) == |t.licences| + 1
  {
    assert LastLicence(t.licences).Some? ==> LastLicence(t.licences).value in t.licences;
    assert t.licences != [] ==> t.licences[|t.licences| - 1].mail == |t.licences| - 1;
  }

  lemma NewFileIsPaired(t: Tables, mail: Mail, row: LicenceRow)
    requires Paired(t) && OneAtATime(t.mails) && AllSent(t.mails)
    requires mail.extractType == LicenceDataType && mail.status == Pending
    requires row.mail == |t.mails| && row.hmrcRunNumber == |t.licences| + 1
    ensures OneAtATime(t.mails + [mail]) && Paired(t.(mails := t.mails + [mail], licences := t.licences + [row]))
  {
    hide Deliverable;
  }

  lemma AllProcessed(t: Tables)
    requires PayloadsPlaced(t) && AllSent(t.mails)
    ensures forall k :: 0 <= k < |t.licences| ==> t.licences[k].payloads <= t.processed
  {
    forall k | 0 <= k < |t.licences|
      ensures t.licences[k].payloads <= t.processed
    {
      assert t.mails[k].status == ReplySent;
    }
  }

  lemma NewFileTakesWhatWaits(t: Tables, mail: Mail, row: LicenceRow)
    requires PayloadsPlaced(t) && AllSent(t.mails)
    requires mail.status == Pending && row.payloads == t.waiting
    ensures PayloadsPlaced(t.(mails := t.mails + [mail], licences := t.licences + [row]))
  {
    AllProcessed(t);
    var u := t.(mails := t.mails + [mail], licences := t.licences + [row]);
    forall id | id in t.processed
      ensures exists k :: 0 <= k < |u.licences| && id in u.licences[k].payloads
    {
      var k :| 0 <= k < |t.licences| && id in t.licences[k].payloads;
      assert id in u.licences[k].payloads;
    }
  }

  lemma NewFileIsDisjoint(rows: seq<LicenceRow>, row: LicenceRow, processed: set<nat>)
    requires PayloadsInOneFile(rows) && row.payloads !! processed && row.payloads != {}
    requires forall k :: 0 <= k < |rows| ==> rows[k].payloads <= processed
    ensures PayloadsInOneFile(rows + [row])
  {
  }

  lemma SentIs(t: Tables, valid: bool)
    requires LoopInvariant(t) && LiteSent(t, valid) != t
    ensures AllSent(t.mails) && t.waiting != {} && t.waiting !! t.processed && t.sendings == []
    ensures var number := |t.licences| + 1;
            var mail := NewMail(LicenceDataType, Built(number));
            var row := LicenceRow(number, None, Lite, |t.mails|, t.waiting);
            && |t.mails| == |t.licences| && mail.extractType == LicenceDataType && mail.status == Pending
            && LiteSent(t, valid) ==
               t.(mails := t.mails + [mail], licences := t.licences + [row], sendings := [LiteSending(|t.mails|, t.waiting)])
  {
    NextNumberCounts(t);
    SentWhen(t);
    hide NextLiteNumber, Deliverable, PayloadsInOneFile, MailGood, OneAtATime, PayloadsPlaced;
  }

  lemma SentWhen(t: Tables)
    requires LoopInvariant(t) && AllSent(t.mails)
    ensures t.waiting !! t.processed && t.sendings == [] && |t.mails| == |t.licences|
  {
    hide MailGood, OneAtATime, PayloadsInOneFile;
  }

  lemma SentKeeps(t: Tables, valid: bool)
    requires LoopInvariant(t)
    ensures LoopInvariant(LiteSent(t, valid))
  {
    hide *;
    if LiteSent(t, valid) != t {
      SentIs(t, valid);
      var number := |t.licences| + 1;
      Grown(t, NewMail(LicenceDataType, Built(number)), LicenceRow(number, None, Lite, |t.mails|, t.waiting));
    }
  }

  lemma Grown(t: Tables, mail: Mail, row: LicenceRow)
    requires LoopInvariant(t) && AllSent(t.mails) && t.waiting != {} && t.waiting !! t.processed
    requires mail.extractType == LicenceDataType && mail.status == Pending
    requires row.mail == |t.mails| == |t.licences| && row.hmrcRunNumber == |t.licences| + 1 && row.payloads == t.waiting
    ensures LoopInvariant(t.(mails := t.mails + [mail], licences := t.licences + [row],
                             sendings := [LiteSending(|t.mails|, t.waiting)]))
  {
    assert Paired(t) && OneAtATime(t.mails) && PayloadsPlaced(t) && PayloadsInOneFile(t.licences);
    hide Paired, OneAtATime, PayloadsPlaced, PayloadsInOneFile, AllSent;
    NewFileIsPaired(t, mail, row);
    NewFileTakesWhatWaits(t, mail, row);
    AllProcessed(t);
    NewFileIsDisjoint(t.licences, row, t.processed);
    MoreSendings(t.(mails := t.mails + [mail], licences := t.licences + [row]), [LiteSending(|t.mails|, t.waiting)]);
  }

  lemma MoreSendings(t: Tables, sendings: seq<Sending>)
    requires Paired(t) && PayloadsPlaced(t)
    ensures Paired(t.(sendings := sendings)) && PayloadsPlaced(t.(sendings := sendings))
  {
  }

  lemma FinalisedKeeps(t: Tables, k: nat)
    requires LoopInvariant(t) && k < |t.sendings|
    ensures t.mails[t.sendings[k].mail].status == Pending
    ensures LoopInvariant(Finalised(t, k))
  {
    hide *;
    LoopParts(t);
    FinalisedIs(t, k);
    FinalisedMails(t.mails);
    LastOnly(t.mails);
    FinalisedPayloads(t);
    FinalisedRest(t, k);
    LoopWhole(Finalised(t, k));
  }

  lemma LastOnly(mails: seq<Mail>)
    requires OneAtATime(mails) && mails != []
    ensures mails[|mails| - 1].extractType == LicenceDataType
    ensures forall k :: 0 <= k < |mails| - 1 ==> mails[k].status == ReplySent
  {
    hide Deliverable;
    assert MailGood(mails[|mails| - 1]);
  }

  lemma FinalisedRest(t: Tables, k: nat)
    requires Paired(t) && SendingOfLast(t) && PayloadsPlaced(t) && k < |t.sendings|
    ensures t.sendings[k].mail < |t.mails|
    ensures Paired(Finalised(t, k)) && SendingOfLast(Finalised(t, k)) && Finalised(t, k).licences == t.licences
  {
    FinalisedIs(t, k);
    hide Finalised, PayloadsPlaced;
  }

  lemma FinalisedIs(t: Tables, k: nat)
    requires SendingOfLast(t) && PayloadsPlaced(t) && k < |t.sendings|
    ensures var last := |t.mails| - 1;
            && last >= 0 && t.sendings[k].mail == last && t.mails[last].status == Pending
            && Finalised(t, k) == t.(mails := t.mails[last := Updated(t.mails[last])], sendings := [],
                                     waiting := t.waiting - t.licences[last].payloads,
                                     processed := t.processed + t.licences[last].payloads)
  {
    var last := |t.mails| - 1;
    assert t.licences[last].payloads * t.waiting == t.licences[last].payloads;
    assert Without(t.sendings, k) == [];
  }

  lemma FinalisedMails(mails: seq<Mail>)
    requires OneAtATime(mails) && mails != [] && mails[|mails| - 1].status == Pending
    ensures OneAtATime(mails[|mails| - 1 := Updated(mails[|mails| - 1])])
  {
    hide Deliverable;
    assert MailGood(mails[|mails| - 1]);
  }

  lemma FinalisedPayloads(t: Tables)
    requires PayloadsPlaced(t) && PayloadsInOneFile(t.licences) && t.mails != []
    requires t.mails[|t.mails| - 1].status == Pending && t.mails[|t.mails| - 1].extractType == LicenceDataType
    requires forall k :: 0 <= k < |t.mails| - 1 ==> t.mails[k].status == ReplySent
    ensures var last := |t.mails| - 1;
            PayloadsPlaced(t.(mails := t.mails[last := Updated(t.mails[last])], sendings := [],
                              waiting := t.waiting - t.licences[last].payloads,
                              processed := t.processed + t.licences[last].payloads))
  {
    var last := |t.mails| - 1;
    var payloads := t.licences[last].payloads;
    forall k | 0 <= k < last
      ensures t.licences[k].payloads <= t.processed + payloads
    {
      assert t.mails[k].status == ReplySent;
    }
  }

  lemma NewPayloadKeeps(t: Tables, payload: LicenceReply.Payload)
    requires LoopInvariant(t)
    ensures LoopInvariant(PayloadSaved(t, payload))
  {
    hide Deliverable, OneAtATime, PayloadsInOneFile;
  }

  lemma NextKeeps(t: Tables, e: Event)
    requires LoopInvariant(t) && Enabled(t, e)
    ensures LoopInvariant(Next(t, e))
  {
    hide Deliverable, OneAtATime, PayloadsInOneFile, RepliesStored, PassedOn, LiteSent, Finalised;
    match e
    case NewPayload(payload) => NewPayloadKeeps(t, payload);
    case Send(valid) => SentKeeps(t, valid);
    case Deliver(k) => FinalisedKeeps(t, k);
    case GiveUp(k) => assert Next(t, e).sendings == [];
    case TakeIn(messages) => if RepliesStored(t, messages).Some? { RepliesStoredKeeps(t, messages); }
    case PassOn(posted) => PassedOnKeeps(t, posted);
  }

  lemma {:induction false} RunKeeps(t: Tables, events: seq<Event>)
    requires LoopInvariant(t) && Possible(t, events)
    ensures LoopInvariant(Run(t, events))
    decreases |events|
  {
    hide LoopInvariant, Next, Enabled;
    if events != [] {
      NextKeeps(t, events[0]);
      RunKeeps(Next(t, events[0]), events[1..]);
    }
  }

  /** The parts of the invariant, after any run. */
  lemma RunHolds(events: seq<Event>)
    requires Possible(NO_TABLES, events)
    ensures var t := Run(NO_TABLES, events);
            Paired(t) && OneAtATime(t.mails) && SendingOfLast(t) && PayloadsPlaced(t) && PayloadsInOneFile(t.licences)
  {
    hide Next, Enabled, Deliverable, Possible, Run;
    RunKeeps(NO_TABLES, events);
  }

  // ---------------------------------------------------------------- the claims

  function NotSent(): Mail -> bool {
    (m: Mail) => m.status != ReplySent
  }

  /** At most one mail of a run is ever not `reply_sent`, and every finalising task finds its mail `pending`. */
  lemma OneMailAtATime(events: seq<Event>)
    requires Possible(NO_TABLES, events)
    ensures var t := Run(NO_TABLES, events);
            && |Positions(t.mails, NotSent())| <= 1
            && |t.sendings| <= 1
            && forall k :: 0 <= k < |t.sendings| ==>
                 t.sendings[k].mail < |t.mails| && t.mails[t.sendings[k].mail].status == Pending
  {
    hide *;
    RunHolds(events);
    LoopIsOneAtATime(Run(NO_TABLES, events));
  }

  lemma LoopIsOneAtATime(t: Tables)
    requires OneAtATime(t.mails) && SendingOfLast(t)
    ensures |Positions(t.mails, NotSent())| <= 1 && |t.sendings| <= 1
    ensures forall k :: 0 <= k < |t.sendings| ==>
              t.sendings[k].mail < |t.mails| && t.mails[t.sendings[k].mail].status == Pending
  {
    hide Positions, MailGood;
    PositionsAtMostOne(t.mails, NotSent());
  }

  /** Run numbers are 1, 2, 3, ..., and a reply's run number finds exactly the file it was given to. */
  lemma RunNumbersAreUnique(events: seq<Event>, number: nat)
    requires Possible(NO_TABLES, events)
    ensures var rows := Run(NO_TABLES, events).licences;
            && (forall k :: 0 <= k < |rows| ==> rows[k].hmrcRunNumber == k + 1)
            && LicencesNumbered(rows, number) == if 1 <= number <= |rows| then [rows[number - 1]] else []
  {
    hide Next, Enabled, Deliverable;
    RunKeeps(NO_TABLES, events);
    NumberedFromOne(Run(NO_TABLES, events).licences, number);
  }

  /** No payload is put in two files, and the processed payloads are those of the files that were sent. */
  lemma PayloadsAreSentOnce(events: seq<Event>, id: nat)
    requires Possible(NO_TABLES, events)
    ensures var t := Run(NO_TABLES, events);
            && |t.mails| == |t.licences|
            && (forall i, j :: (0 <= i < j < |t.licences| && id in t.licences[i].payloads) ==> id !in t.licences[j].payloads)
            && (id in t.processed <==>
                exists k :: 0 <= k < |t.licences| && id in t.licences[k].payloads && t.mails[k].status != Pending)
  {
    hide Next, Enabled, Deliverable;
    RunKeeps(NO_TABLES, events);
    var t := Run(NO_TABLES, events);
    if id in t.processed {
      var k :| 0 <= k < |t.licences| && id in t.licences[k].payloads;
      assert t.mails[k].status != Pending;
    }
  }

  /**
   Passing replies on never meets two of them; what was passed on was read and valid; and it
   raises exactly when the reply waiting is not, or its callback cannot be built.
   */
  lemma OnlyValidRepliesArePassedOn(events: seq<Event>, posted: bool)
    requires Possible(NO_TABLES, events)
    ensures var t := Run(NO_TABLES, events);
            && |Positions(t.mails, LicenceDataWith(ReplyReceived))| <= 1
            && (forall k :: 0 <= k < |t.mails| && t.mails[k].status == ReplySent ==> t.mails[k].sent && Deliverable(t.mails[k]))
            && (PassedOn(t, posted).Raised? <==>
                exists k :: 0 <= k < |t.mails| && t.mails[k].status == ReplyReceived && !Answerable(t, t.mails[k]))
  {
    hide Next, Enabled, Deliverable, Answerable;
    RunKeeps(NO_TABLES, events);
    var t := Run(NO_TABLES, events);
    OneReceived(t);
    forall k | 0 <= k < |t.mails|
      ensures MailGood(t.mails[k])
      ensures t.mails[k].status == ReplySent ==> t.mails[k].sent && Deliverable(t.mails[k])
    {
      assert MailGood(t.mails[k]);
    }
    RaisesExactlyWhen(t, posted);
  }

  lemma RaisesExactlyWhen(t: Tables, posted: bool)
    requires forall k :: 0 <= k < |t.mails| ==> t.mails[k].extractType == LicenceDataType
    requires |Positions(t.mails, LicenceDataWith(ReplyReceived))| <= 1
    ensures PassedOn(t, posted).Raised? <==>
            exists k :: 0 <= k < |t.mails| && t.mails[k].status == ReplyReceived && !Answerable(t, t.mails[k])
  {
    hide Answerable;
    var received := Positions(t.mails, LicenceDataWith(ReplyReceived));
    if received != [] {
      assert LicenceDataWith(ReplyReceived)(t.mails[received[0]]);
    }
    forall k | 0 <= k < |t.mails| && t.mails[k].status == ReplyReceived
      ensures received != [] && k == received[0]
    {
      assert LicenceDataWith(ReplyReceived)(t.mails[k]);
      assert k in received;
    }
  }

  // ---------------------------------------------------------------- what the callback is about

  /** One of the payloads has the reference. */
  predicate HasReference(received: seq<LicenceReply.Payload>, ids: set<nat>, reference: string) {
    exists id :: id in ids && id < |received| && received[id].reference == reference
  }

  /** Each of the references is that of a payload of the file. */
  predicate KnownIn(t: Tables, row: LicenceRow, references: seq<string>) {
    forall k :: 0 <= k < |references| ==> HasReference(t.received, row.payloads, references[k])
  }

  lemma HasReferencePush(received: seq<LicenceReply.Payload>, ids: set<nat>, reference: string, n: nat)
    requires |received| == n + 1
    ensures HasReference(received, ids, reference) <==>
            HasReference(received[..n], ids, reference) || (n in ids && received[n].reference == reference)
  {
    if HasReference(received, ids, reference) {
      var id :| id in ids && id < |received| && received[id].reference == reference;
      assert id < n ==> received[..n][id].reference == reference;
    }
    if HasReference(received[..n], ids, reference) {
      var id :| id in ids && id < n && received[..n][id].reference == reference;
      assert received[id].reference == reference;
    }
  }

  lemma IdForPush(payloads: seq<LicenceReply.Payload>, last: LicenceReply.Payload, reference: string)
    ensures LicenceReply.IdFor(payloads + [last], reference).Some? <==>
            LicenceReply.IdFor(payloads, reference).Some? || last.reference == reference
  {
    assert (payloads + [last])[..|payloads|] == payloads;
  }

  lemma {:induction false} IdForExactly(received: seq<LicenceReply.Payload>, ids: set<nat>, reference: string)
    ensures LicenceReply.IdFor(PayloadsAt(received, ids), reference).Some? <==> HasReference(received, ids, reference)
  {
    hide HasReference;
    if received == [] {
      NoReference(ids, reference);
    } else {
      var n := |received| - 1;
      IdForExactly(received[..n], ids, reference);
      HasReferencePush(received, ids, reference, n);
      var before := PayloadsAt(received[..n], ids);
      IdForPush(before, received[n], reference);
      assert before + [] == before;
    }
  }

  lemma NoReference(ids: set<nat>, reference: string)
    ensures !HasReference([], ids, reference)
  {
  }

  lemma KnownExactly(t: Tables, row: LicenceRow, references: seq<string>)
    ensures LicenceReply.Known(references, PayloadsAt(t.received, row.payloads)) <==> KnownIn(t, row, references)
  {
    hide PayloadsAt, LicenceReply.IdFor, HasReference;
    forall k | 0 <= k < |references|
      ensures LicenceReply.IdFor(PayloadsAt(t.received, row.payloads), references[k]).Some? <==>
              HasReference(t.received, row.payloads, references[k])
    {
      IdForExactly(t.received, row.payloads, references[k]);
    }
  }

  /**
   In every run the callback for a reply can be built exactly when the number in its file header is
   that of a file, and every reference it answers is that of a payload of that file.
   */
  lemma CallbackIsBuiltExactlyWhen(events: seq<Event>, s: LicenceReply.Reply)
    requires Possible(NO_TABLES, events)
    ensures var t := Run(NO_TABLES, events);
            var number := HeaderNumber(s);
            CallbackFor(t, s).Some? <==>
            && number.Some? && 1 <= number.value <= |t.licences|
            && KnownIn(t, t.licences[number.value - 1], s.accepted)
            && KnownIn(t, t.licences[number.value - 1], LicenceReply.RejectedReferences(s.rejected))
  {
    hide *;
    RunHolds(events);
    CallbackInLoop(Run(NO_TABLES, events), s);
  }

  lemma RowNumbered(t: Tables, number: int)
    requires Paired(t)
    ensures number >= 0 ==> LicencesNumbered(t.licences, number) == if 1 <= number <= |t.licences| then [t.licences[number - 1]] else []
  {
    if number >= 0 {
      NumberedFromOne(t.licences, number);
    }
  }

  lemma RowInLoop(t: Tables, s: LicenceReply.Reply)
    requires Paired(t)
    ensures var number := HeaderNumber(s);
            CallbackRow(t, s) == if number.Some? && 1 <= number.value <= |t.licences| then Some(t.licences[number.value - 1]) else None
  {
    hide HeaderNumber, LicencesNumbered, Paired;
    if HeaderNumber(s).Some? {
      RowNumbered(t, HeaderNumber(s).value);
    }
  }

  lemma CallbackInLoop(t: Tables, s: LicenceReply.Reply)
    requires Paired(t)
    ensures var number := HeaderNumber(s);
            CallbackFor(t, s).Some? <==>
            && number.Some? && 1 <= number.value <= |t.licences|
            && KnownIn(t, t.licences[number.value - 1], s.accepted)
            && KnownIn(t, t.licences[number.value - 1], LicenceReply.RejectedReferences(s.rejected))
  {
    RowInLoop(t, s);
    hide CallbackRow, KnownIn, PayloadsAt, Paired, LicenceReply.Known, LicenceReply.LicenceReplyData;
    if CallbackRow(t, s).Some? {
      var row := CallbackRow(t, s).value;
      LicenceReply.CallbackExactlyWhenKnown(s, PayloadsAt(t.received, row.payloads));
      KnownExactly(t, row, s.accepted);
      KnownExactly(t, row, LicenceReply.RejectedReferences(s.rejected));
    }
  }

  /**
   In every run, the callback for the reply stored on a mail is about the payloads of that mail's
   own file exactly when the number in the reply's header is that of the mail. The reply itself was
   stored by the number in its subject, and nothing compares the two.
   */
  lemma CallbackIsAboutItsOwnMailExactlyWhen(events: seq<Event>, m: nat, s: LicenceReply.Reply)
    requires Possible(NO_TABLES, events)
    requires m < |Run(NO_TABLES, events).mails| && CallbackRow(Run(NO_TABLES, events), s).Some?
    ensures var t := Run(NO_TABLES, events);
            && m < |t.licences|
            && (CallbackRow(t, s).value.payloads == t.licences[m].payloads <==> HeaderNumber(s) == Some(t.licences[m].hmrcRunNumber))
  {
    hide *;
    RunHolds(events);
    var t := Run(NO_TABLES, events);
    OwnRowExactlyWhen(t, m, s);
  }

  lemma OwnRowExactlyWhen(t: Tables, m: nat, s: LicenceReply.Reply)
    requires Paired(t) && PayloadsInOneFile(t.licences) && m < |t.mails| && CallbackRow(t, s).Some?
    ensures m < |t.licences| && t.licences[m].hmrcRunNumber == m + 1
    ensures CallbackRow(t, s).value.payloads == t.licences[m].payloads <==> HeaderNumber(s) == Some(t.licences[m].hmrcRunNumber)
  {
    RowInLoop(t, s);
    hide HeaderNumber, CallbackRow, PayloadsInOneFile;
    OneFileEach(t.licences, HeaderNumber(s).value - 1, m);
  }

  lemma OneFileEach(rows: seq<LicenceRow>, i: nat, j: nat)
    requires PayloadsInOneFile(rows) && i < |rows| && j < |rows|
    ensures rows[i].payloads == rows[j].payloads <==> i == j
  {
    if i != j {
      var id :| id in rows[i].payloads;
      assert id !in rows[j].payloads;
    }
  }

  /** Every reply in the mailbox names in its file header the run number it has in its subject. */
  predicate Consistent(messages: seq<Message>) {
    forall k :: 0 <= k < |messages| && messages[k].Reply? ==> NamesNumber(messages[k].text, messages[k].runNumber)
  }

  predicate NamesNumber(text: string, number: nat) {
    LicenceReply.Process(text).Some? ==> HeaderNumber(LicenceReply.Process(text).value) == Some(number)
  }

  predicate AllConsistent(events: seq<Event>) {
    forall k :: 0 <= k < |events| && events[k].TakeIn? ==> Consistent(events[k].messages)
  }

  predicate OwnHeaders(mails: seq<Mail>) {
    forall m :: 0 <= m < |mails| && mails[m].response.Some? ==> NamesNumber(mails[m].response.value, m + 1)
  }

  lemma {:induction false} RepliesKeepHeaders(t: Tables, messages: seq<Message>)
    requires LoopInvariant(t) && OwnHeaders(t.mails) && Consistent(messages) && RepliesStored(t, messages).Some?
    ensures OwnHeaders(RepliesStored(t, messages).value.mails)
    decreases |messages|
  {
    hide NamesNumber, OneAtATime, SendingOfLast, PayloadsPlaced, PayloadsInOneFile, LicencesNumbered;
    if messages != [] {
      NumberedFromOne(t.licences, messages[0].runNumber);
      ReplyStoredKeeps(t, messages[0].runNumber, messages[0].text);
      RepliesKeepHeaders(ReplyStored(t, messages[0].runNumber, messages[0].text).value, messages[1..]);
    }
  }

  lemma NextKeepsHeaders(t: Tables, e: Event)
    requires LoopInvariant(t) && Enabled(t, e) && OwnHeaders(t.mails) && (e.TakeIn? ==> Consistent(e.messages))
    ensures OwnHeaders(Next(t, e).mails)
  {
    hide LoopInvariant, NamesNumber, Answerable, RepliesStored, Consistent, Positions;
    match e
    case TakeIn(messages) => if RepliesStored(t, messages).Some? { RepliesKeepHeaders(t, messages); }
    case _ =>
  }

  lemma {:induction false} RunKeepsHeaders(t: Tables, events: seq<Event>)
    requires LoopInvariant(t) && Possible(t, events) && OwnHeaders(t.mails) && AllConsistent(events)
    ensures OwnHeaders(Run(t, events).mails)
    decreases |events|
  {
    hide LoopInvariant, OwnHeaders, Consistent, Next, Enabled;
    if events != [] {
      NextKeeps(t, events[0]);
      NextKeepsHeaders(t, events[0]);
      RunKeepsHeaders(Next(t, events[0]), events[1..]);
    }
  }

  /** If every reply's subject and header agree, every stored reply is answered from its own file's payloads. */
  lemma ConsistentRepliesAnswerTheirOwnFile(events: seq<Event>, m: nat)
    requires Possible(NO_TABLES, events) && AllConsistent(events)
    requires m < |Run(NO_TABLES, events).mails| && Run(NO_TABLES, events).mails[m].response.Some?
    requires LicenceReply.Process(Run(NO_TABLES, events).mails[m].response.value).Some?
    ensures var t := Run(NO_TABLES, events);
            var s := LicenceReply.Process(t.mails[m].response.value).value;
            m < |t.licences| && CallbackFor(t, s) == LicenceReply.LicenceReplyData(s, PayloadsAt(t.received, t.licences[m].payloads))
  {
    hide Next, Enabled, Deliverable, AllConsistent;
    RunKeeps(NO_TABLES, events);
    RunKeepsHeaders(NO_TABLES, events);
    var t := Run(NO_TABLES, events);
    assert NamesNumber(t.mails[m].response.value, m + 1);
    NumberedFromOne(t.licences, m + 1);
  }

  // ---------------------------------------------------------------- a callback about another file

  const FIRST := LicenceReply.Payload("first id", "first")
  const SECOND := LicenceReply.Payload("second id", "second")

  /** A reply to file 1 that accepts its only licence. */
  const FIRST_REPLY := LicenceReply.ReplyFile(
    LicenceReply.FileHeader("CHIEF", "SPIRE", "licenceReply", "202201011200", "1"),
    [LicenceReply.AcceptedItem("first")],
    LicenceReply.FileTrailer("1", "0", "0"))

  function FirstReplyText(): string {
    LicenceReply.CreateLicenceReplyFile(LicenceReply.FileRecords(FIRST_REPLY))
  }

  /** The second file is answered by a message whose subject says 2 and whose attachment is the reply to file 1. */
  function WrongAttachment(): seq<Event> {
    [NewPayload(FIRST), Send(true), Deliver(0), TakeIn([Reply(1, FirstReplyText())]), PassOn(true),
     NewPayload(SECOND), Send(true), Deliver(0), TakeIn([Reply(2, FirstReplyText())])]
  }

  lemma FirstReplyIsRead()
    ensures LicenceReply.Process(FirstReplyText()) == Some(LicenceReply.Meaning(FIRST_REPLY))
    ensures HeaderNumber(LicenceReply.Meaning(FIRST_REPLY)) == Some(1)
    ensures LicenceReply.Valid(LicenceReply.Meaning(FIRST_REPLY)) == Some(true)
    ensures LicenceReply.Meaning(FIRST_REPLY).accepted == ["first"] && LicenceReply.Meaning(FIRST_REPLY).rejected == []
  {
    FirstReplyShape();
    LicenceReply.PrintThenProcess(FIRST_REPLY);
    OneAndNone();
    FirstReplyMeans();
    hide LicenceReply.Process, FirstReplyText, ParseInt, LicenceReply.Meaning;
  }

  lemma OneAndNone()
    ensures ParseInt("1") == Some(1) && ParseInt("0") == Some(0)
  {
    assert Decimal(1) == "1" && Decimal(0) == "0";
    DecimalRoundTrip(1);
    DecimalRoundTrip(0);
  }

  lemma FirstReplyMeans()
    ensures var s := LicenceReply.Meaning(FIRST_REPLY);
            && s.header == Some(FIRST_REPLY.header) && s.trailer == Some(FIRST_REPLY.trailer) && s.fileErrors == []
            && s.accepted == ["first"] && s.rejected == []
  {
    assert FIRST_REPLY.items[1..] == [];
  }

  lemma FirstReplyShape()
    ensures LicenceReply.Structured(FIRST_REPLY) && LicenceReply.RecordsOk(LicenceReply.FileRecords(FIRST_REPLY))
  {
    var f := FIRST_REPLY;
    assert f.items[1..] == [];
    assert LicenceReply.AllRecords(f.items) == [LicenceReply.Accepted("first")];
    TextsFree();
    hide AllFree;
    assert LicenceReply.FileRecords(f) == [f.header, LicenceReply.Accepted("first"), f.trailer];
  }

  lemma TextsFree()
    ensures LicenceReply.RecordOk(FIRST_REPLY.header)
    ensures LicenceReply.RecordOk(LicenceReply.Accepted("first")) && LicenceReply.RecordOk(FIRST_REPLY.trailer)
  {
    LettersFree();
    hide Free;
  }

  predicate Separated(s: string) {
    Free(s, FIELD_SEP) && Free(s, LINE_SEP)
  }

  lemma LettersFree()
    ensures Separated("CHIEF") && Separated("SPIRE") && Separated("licenceReply") && Separated("202201011200")
    ensures Separated("0") && Separated("1") && Separated("first")
  {
  }

  lemma OneStep(t: Tables, e: Event, rest: seq<Event>, u: Tables, events: seq<Event>)
    requires Enabled(t, e) && Next(t, e) == u && events == [e] + rest
    ensures events[1..] == rest
    ensures Possible(t, events) == Possible(u, rest)
    ensures Possible(u, rest) ==> Run(t, events) == Run(u, rest)
  {
    assert events[1..] == rest;
  }

  /** One file sent, delivered and answered. */
  function OneFile(payload: LicenceReply.Payload, number: nat, text: string): seq<Event> {
    [NewPayload(payload), Send(true), Deliver(0), TakeIn([Reply(number, text)])]
  }

  function Filed(t: Tables, payload: LicenceReply.Payload, mail: Mail): Tables {
    Tables(t.mails + [mail], t.licences + [LicenceRow(|t.mails| + 1, None, Lite, |t.mails|, {|t.received|})], t.usages,
           t.received + [payload], {}, t.processed + {|t.received|}, [])
  }

  function Answer(number: nat, text: string): Mail {
    Mail(LicenceDataType, ReplyReceived, Built(number), Some(text), true, false)
  }

  lemma SendOne(t: Tables, payload: LicenceReply.Payload)
    requires Paired(t) && AllSent(t.mails) && t.waiting == {} && t.sendings == []
    ensures var n := |t.mails| + 1;
            var t1 := PayloadSaved(t, payload);
            LiteSent(t1, true) ==
            t1.(mails := t.mails + [NewMail(LicenceDataType, Built(n))],
                licences := t.licences + [LicenceRow(n, None, Lite, n - 1, {|t.received|})],
                sendings := [LiteSending(n - 1, {|t.received|})])
  {
    var t1 := PayloadSaved(t, payload);
    assert t1.waiting == {|t.received|};
    NextNumberCounts(t1);
    hide NextLiteNumber;
  }

  lemma DeliverOne(t: Tables, payload: LicenceReply.Payload)
    requires t.waiting == {} && t.sendings == [] && |t.received| !in t.processed
    ensures var n := |t.mails| + 1;
            var t2 := PayloadSaved(t, payload).(mails := t.mails + [NewMail(LicenceDataType, Built(n))],
                        licences := t.licences + [LicenceRow(n, None, Lite, n - 1, {|t.received|})],
                        sendings := [LiteSending(n - 1, {|t.received|})]);
            Finalised(t2, 0) == Filed(t, payload, Mail(LicenceDataType, ReplyPending, Built(n), None, true, false))
  {
    var n := |t.mails| + 1;
    var id := |t.received|;
    assert ({} + {id}) - {id} == {};
    assert {id} * ({} + {id}) == {id};
    assert Without([LiteSending(n - 1, {id})], 0) == [];
  }

  lemma StoreOne(t: Tables, payload: LicenceReply.Payload, text: string)
    requires Paired(t)
    ensures var n := |t.mails| + 1;
            var t3 := Filed(t, payload, Mail(LicenceDataType, ReplyPending, Built(n), None, true, false));
            RepliesStored(t3, [Reply(n, text)]) == Some(Filed(t, payload, Answer(n, text)))
  {
    var n := |t.mails| + 1;
    var t3 := Filed(t, payload, Mail(LicenceDataType, ReplyPending, Built(n), None, true, false));
    NumberedFromOne(t3.licences, n);
    assert [Reply(n, text)][1..] == [];
    assert t3.mails[n - 1 := Answer(n, text)] == t.mails + [Answer(n, text)];
  }

  lemma FileOne(t: Tables, payload: LicenceReply.Payload, text: string, rest: seq<Event>, events: seq<Event>)
    requires Paired(t) && AllSent(t.mails) && t.waiting == {} && t.sendings == [] && |t.received| !in t.processed
    requires events == OneFile(payload, |t.mails| + 1, text) + rest
    ensures var u := Filed(t, payload, Answer(|t.mails| + 1, text));
            && Possible(t, events) == Possible(u, rest)
            && (Possible(u, rest) ==> Run(t, events) == Run(u, rest))
  {
    hide Possible, Run, LiteSent, Finalised, RepliesStored, Paired, AllSent;
    var n := |t.mails| + 1;
    SendOne(t, payload);
    DeliverOne(t, payload);
    StoreOne(t, payload, text);
    var t1 := PayloadSaved(t, payload);
    var t2 := LiteSent(t1, true);
    var t3 := Finalised(t2, 0);
    var t4 := Filed(t, payload, Answer(n, text));
    OneStep(t, NewPayload(payload), [Send(true), Deliver(0), TakeIn([Reply(n, text)])] + rest, t1, events);
    OneStep(t1, Send(true), [Deliver(0), TakeIn([Reply(n, text)])] + rest, t2, events[1..]);
    OneStep(t2, Deliver(0), [TakeIn([Reply(n, text)])] + rest, t3, events[1..][1..]);
    OneStep(t3, TakeIn([Reply(n, text)]), rest, t4, events[1..][1..][1..]);
  }

  /** After the first file has been passed on. */
  function AfterFirst(): Tables {
    Filed(NO_TABLES, FIRST, Answer(1, FirstReplyText()).(status := ReplySent))
  }

  /** What the callback for the reply to file 1 is, whenever that file holds the first payload. */
  lemma FirstCallback(t: Tables)
    requires Paired(t) && |t.licences| >= 1 && t.licences[0].payloads == {0} && |t.received| >= 1 && t.received[0] == FIRST
    ensures CallbackFor(t, LicenceReply.Meaning(FIRST_REPLY)) == Some(LicenceReply.Callback("1", ["first id"], []))
  {
    FirstReplyIsRead();
    RowInLoop(t, LicenceReply.Meaning(FIRST_REPLY));
    OnlyFirst(t.received);
    hide CallbackRow, PayloadsAt, HeaderNumber, Paired, LicenceReply.Process;
    FirstId();
  }

  lemma FirstId()
    ensures LicenceReply.AcceptedIds(["first"], [FIRST]) == Some(["first id"])
  {
    assert ["first"][1..] == [];
    assert LicenceReply.AcceptedIds([], [FIRST]) == Some([]);
    assert LicenceReply.IdFor([FIRST], "first") == Some("first id");
    assert ["first id"] + [] == ["first id"];
  }

  lemma {:induction false} OnlyFirst(received: seq<LicenceReply.Payload>)
    requires |received| >= 1
    ensures PayloadsAt(received, {0}) == [received[0]]
  {
    var n := |received| - 1;
    if n > 0 {
      OnlyFirst(received[..n]);
      assert PayloadsAt(received[..n], {0}) + [] == PayloadsAt(received[..n], {0});
    } else {
      assert received[..0] == [];
    }
  }

  lemma PassFirstOn()
    ensures PassedOn(Filed(NO_TABLES, FIRST, Answer(1, FirstReplyText())), true) == Done(AfterFirst())
  {
    hide FirstReplyText, LicenceReply.Process, LicenceReply.Valid, LicenceReply.Meaning, CallbackFor, Positions;
    var t := Filed(NO_TABLES, FIRST, Answer(1, FirstReplyText()));
    FirstReplyIsRead();
    FirstCallback(t);
    OneAnswer(t.mails, 0);
    assert t.mails[0 := AfterFirst().mails[0]] == AfterFirst().mails;
  }

  lemma {:induction false} OneAnswer(mails: seq<Mail>, m: nat)
    requires m + 1 == |mails| && LicenceDataWith(ReplyReceived)(mails[m])
    requires forall k :: 0 <= k < m ==> mails[k].status == ReplySent
    ensures Positions(mails, LicenceDataWith(ReplyReceived)) == [m]
  {
    PositionsNone(mails[..m], LicenceDataWith(ReplyReceived));
  }

  /**
   A reply can be answered from another file's payloads. The second file's mail is passed on to
   ICMS, and is `reply_sent`, with a callback that holds the first file's payload; its own payload
   is answered by nothing.
   */
  lemma WrongAttachmentAnswersAnotherFile(events: seq<Event>)
    requires events == WrongAttachment()
    ensures Possible(NO_TABLES, events)
    ensures var t := Run(NO_TABLES, events);
            && |t.mails| == |t.licences| == 2 && t.received == [FIRST, SECOND] && t.licences[1].payloads == {1}
            && t.mails[1].response == Some(FirstReplyText()) && t.mails[1].status == ReplyReceived
            && CallbackFor(t, LicenceReply.Meaning(FIRST_REPLY)) == Some(LicenceReply.Callback("1", ["first id"], []))
            && PassedOn(t, true).Done? && PassedOn(t, true).tables.mails[1].status == ReplySent
  {
    hide Possible, Run, FirstReplyText, PassedOn, CallbackFor;
    var text := FirstReplyText();
    var second := OneFile(SECOND, 2, text);
    var t1 := Filed(NO_TABLES, FIRST, Answer(1, text));
    var t2 := AfterFirst();
    assert events == OneFile(FIRST, 1, text) + ([PassOn(true)] + second);
    FileOne(NO_TABLES, FIRST, text, [PassOn(true)] + second, events);
    PassFirstOn();
    OneStep(t1, PassOn(true), second, t2, [PassOn(true)] + second);
    assert second + [] == second;
    FileOne(t2, SECOND, text, [], second);
    var t := Filed(t2, SECOND, Answer(2, text));
    NothingLeft(t);
    FirstCallback(t);
    PassSecondOn(t);
  }

  lemma NothingLeft(t: Tables)
    ensures Possible(t, []) && Run(t, []) == t
  {
  }

  lemma PassSecondOn(t: Tables)
    requires t == Filed(AfterFirst(), SECOND, Answer(2, FirstReplyText()))
    requires CallbackFor(t, LicenceReply.Meaning(FIRST_REPLY)).Some?
    ensures PassedOn(t, true).Done? && |PassedOn(t, true).tables.mails| == 2
    ensures PassedOn(t, true).tables.mails[1].status == ReplySent
  {
    hide FirstReplyText, LicenceReply.Process, LicenceReply.Valid, LicenceReply.Meaning, CallbackFor, Positions;
    FirstReplyIsRead();
    OneAnswer(t.mails, 1);
  }

  // ---------------------------------------------------------------- when a sending fails for good

  predicate Stuck(t: Tables) {
    LoopInvariant(t) && t.sendings == [] && t.mails != [] && t.mails[|t.mails| - 1].status == Pending
  }

  lemma StuckMeans(t: Tables)
    requires Stuck(t)
    ensures Paired(t) && !AllSent(t.mails) && t.sendings == []
    ensures forall k :: 0 <= k < |t.mails| ==> t.mails[k].status in {Pending, ReplySent}
  {
    hide MailGood, Paired, PayloadsPlaced, PayloadsInOneFile;
    LoopParts(t);
    var last := |t.mails| - 1;
    assert t.mails[last].status == Pending;
  }

  lemma NothingToTakeIn(t: Tables, messages: seq<Message>)
    requires Stuck(t)
    ensures Taken(t, messages) == t
  {
    hide Stuck, LicencesNumbered, RepliesStored;
    StuckMeans(t);
    FirstIsStored(t, messages);
    if messages != [] && messages[0].Reply? {
      NumberedFromOne(t.licences, messages[0].runNumber);
      assert ReplyStored(t, messages[0].runNumber, messages[0].text).None?;
    }
  }

  lemma FirstIsStored(t: Tables, messages: seq<Message>)
    ensures messages == [] ==> RepliesStored(t, messages) == Some(t)
    ensures messages != [] && messages[0].AnyOther? ==> RepliesStored(t, messages) == None
    ensures messages != [] && messages[0].Reply? && ReplyStored(t, messages[0].runNumber, messages[0].text).None? ==>
              RepliesStored(t, messages) == None
  {
    hide ReplyStored;
  }

  lemma NothingToPassOn(t: Tables, posted: bool)
    requires Stuck(t)
    ensures PassedOn(t, posted).tables == t
  {
    hide Answerable, Positions, Stuck;
    StuckMeans(t);
    PositionsNone(t.mails, LicenceDataWith(ReplyReceived));
  }

  /** No step changes a stuck loop's mails, rows or sendings. */
  lemma StuckStays(t: Tables, e: Event)
    requires Stuck(t) && Enabled(t, e)
    ensures Next(t, e).mails == t.mails && Next(t, e).licences == t.licences && Next(t, e).sendings == t.sendings
  {
    StuckMeans(t);
    hide Stuck, Paired, Taken, PassedOn, AllSent, Finalised, GivenUp;
    match e
    case TakeIn(messages) => NothingToTakeIn(t, messages);
    case PassOn(posted) => NothingToPassOn(t, posted);
    case _ =>
  }

  lemma StuckParts(t: Tables, u: Tables)
    requires Stuck(t) && LoopInvariant(u) && u.mails == t.mails && u.sendings == t.sendings
    ensures LoopInvariant(t) && Stuck(u)
  {
    hide LoopInvariant;
  }

  lemma StuckInvariant(t: Tables)
    requires Stuck(t)
    ensures LoopInvariant(t)
  {
    hide LoopInvariant;
  }

  lemma StuckStep(t: Tables, e: Event)
    requires Stuck(t) && Enabled(t, e)
    ensures Stuck(Next(t, e)) && Next(t, e).mails == t.mails && Next(t, e).licences == t.licences
  {
    hide *;
    StuckInvariant(t);
    NextKeeps(t, e);
    StuckStays(t, e);
    StuckParts(t, Next(t, e));
  }

  lemma GivenUpIsStuck(t: Tables, k: nat)
    requires LoopInvariant(t) && k < |t.sendings|
    ensures Stuck(GivenUp(t, k))
  {
    hide LoopInvariant, OneAtATime, PayloadsInOneFile;
    LoopParts(t);
    LoopWhole(GivenUp(t, k));
  }

  lemma {:induction false} StuckRun(t: Tables, events: seq<Event>)
    requires Stuck(t) && Possible(t, events)
    ensures Run(t, events).mails == t.mails && Run(t, events).licences == t.licences
    decreases |events|
  {
    hide Stuck, Next, Enabled;
    if events != [] {
      StuckStep(t, events[0]);
      StuckRun(Next(t, events[0]), events[1..]);
    }
  }

  /**
   After a sending that failed for good nothing happens any more: its mail stays `pending`, and no
   step of the loop makes a file, stores a reply or passes one on.
   */
  lemma FailedSendingStopsTheLoop(events: seq<Event>, k: nat, later: seq<Event>)
    requires Possible(NO_TABLES, events) && k < |Run(NO_TABLES, events).sendings|
    requires Possible(GivenUp(Run(NO_TABLES, events), k), later)
    ensures var t := GivenUp(Run(NO_TABLES, events), k);
            Run(t, later).mails == t.mails && Run(t, later).licences == t.licences
  {
    hide Next, Enabled, Stuck, Possible, Run, GivenUp;
    RunKeeps(NO_TABLES, events);
    GivenUpIsStuck(Run(NO_TABLES, events), k);
    StuckRun(GivenUp(Run(NO_TABLES, events), k), later);
  }

  // ---------------------------------------------------------------- a file's way through the loop

  /** Every payload received so far waits or is processed. */
  ghost predicate Accounted(t: Tables) {
    forall id: nat :: id in t.waiting + t.processed <==> id < |t.received|
  }

  lemma NextKeepsAccounted(t: Tables, e: Event)
    requires Accounted(t) && Enabled(t, e)
    ensures Accounted(Next(t, e))
  {
    hide RepliesStored, PassedOn, Finalised;
    match e
    case NewPayload(payload) =>
      var n := |t.received|;
      assert Next(t, e).waiting + t.processed == t.waiting + t.processed + {n};
    case Deliver(k) => DeliverKeepsAccounted(t, k);
    case TakeIn(messages) =>
      if RepliesStored(t, messages).Some? { StoringKeepsPayloads(t, messages); }
    case PassOn(posted) => PassingOnKeepsPayloads(t, posted);
    case _ =>
  }

  lemma DeliverKeepsAccounted(t: Tables, k: nat)
    requires Accounted(t) && k < |t.sendings| && t.sendings[k].mail < |t.mails|
    ensures Accounted(Finalised(t, k))
  {
    hide Updated;
    var u := Finalised(t, k);
    assert u.waiting + u.processed == t.waiting + t.processed;
  }

  lemma {:induction false} StoringKeepsPayloads(t: Tables, messages: seq<Message>)
    requires RepliesStored(t, messages).Some?
    ensures var u := RepliesStored(t, messages).value;
            u.received == t.received && u.waiting == t.waiting && u.processed == t.processed
    decreases |messages|
  {
    hide LicencesNumbered;
    if messages != [] {
      StoringKeepsPayloads(ReplyStored(t, messages[0].runNumber, messages[0].text).value, messages[1..]);
    }
  }

  lemma PassingOnKeepsPayloads(t: Tables, posted: bool)
    ensures var u := PassedOn(t, posted).tables;
            u.received == t.received && u.waiting == t.waiting && u.processed == t.processed
  {
    hide Positions, Answerable;
  }

  lemma {:induction false} RunKeepsAccounted(t: Tables, events: seq<Event>)
    requires Accounted(t) && Possible(t, events)
    ensures Accounted(Run(t, events))
    decreases |events|
  {
    hide Accounted, Next, Enabled;
    if events != [] {
      NextKeepsAccounted(t, events[0]);
      RunKeepsAccounted(Next(t, events[0]), events[1..]);
    }
  }

  /**
   In every run a new file is made exactly when every mail is `reply_sent`, some payload is not yet
   processed and the file is valid; and then it holds exactly the payloads that are not processed,
   under the next number, for a new pending mail whose sending is outstanding.
   */
  lemma NewFileHoldsWhatIsUnprocessed(events: seq<Event>, valid: bool)
    requires Possible(NO_TABLES, events)
    ensures var t := Run(NO_TABLES, events);
            var u := Next(t, Send(valid));
            if valid && (forall k :: 0 <= k < |t.mails| ==> t.mails[k].status == ReplySent)
               && (exists id: nat :: id < |t.received| && id !in t.processed) then
              && |u.mails| == |t.mails| + 1 && u.mails[..|t.mails|] == t.mails && u.mails[|t.mails|].status == Pending
              && |u.licences| == |t.mails| + 1 && u.licences[|t.mails|].mail == |t.mails|
              && u.licences[|t.mails|].hmrcRunNumber == |t.mails| + 1
              && (forall id: nat :: id in u.licences[|t.mails|].payloads <==> id < |t.received| && id !in t.processed)
              && u.sendings == [LiteSending(|t.mails|, u.licences[|t.mails|].payloads)]
            else u == t
  {
    hide Next, Enabled, Possible, Run, Deliverable;
    RunHolds(events);
    RunKeepsAccounted(NO_TABLES, events);
    SendExactly(Run(NO_TABLES, events), valid);
  }

  lemma SendExactly(t: Tables, valid: bool)
    requires Paired(t) && SendingOfLast(t) && PayloadsPlaced(t) && Accounted(t)
    ensures var u := Next(t, Send(valid));
            if valid && (forall k :: 0 <= k < |t.mails| ==> t.mails[k].status == ReplySent)
               && (exists id: nat :: id < |t.received| && id !in t.processed) then
              && |u.mails| == |t.mails| + 1 && u.mails[..|t.mails|] == t.mails && u.mails[|t.mails|].status == Pending
              && |u.licences| == |t.mails| + 1 && u.licences[|t.mails|].mail == |t.mails|
              && u.licences[|t.mails|].hmrcRunNumber == |t.mails| + 1
              && (forall id: nat :: id in u.licences[|t.mails|].payloads <==> id < |t.received| && id !in t.processed)
              && u.sendings == [LiteSending(|t.mails|, u.licences[|t.mails|].payloads)]
            else u == t
  {
    NextNumberCounts(t);
    UnprocessedWaits(t);
    hide PayloadsPlaced, Accounted, NextLiteNumber, Paired;
    assert AllSent(t.mails) ==> t.sendings == [];
  }

  lemma UnprocessedWaits(t: Tables)
    requires PayloadsPlaced(t) && Accounted(t)
    ensures forall id: nat :: id in t.waiting <==> id < |t.received| && id !in t.processed
    ensures t.waiting == {} <==> !exists id: nat :: id < |t.received| && id !in t.processed
  {
    assert forall id: nat :: id in t.waiting ==> id in t.waiting + t.processed && id !in t.processed;
    assert forall id: nat :: id < |t.received| && id !in t.processed ==> id in t.waiting + t.processed;
    hide PayloadsPlaced, Accounted;
    if t.waiting != {} {
      var id: nat :| id in t.waiting;
      assert id < |t.received| && id !in t.processed;
    }
  }

  /**
   In every run a reply is stored exactly when it carries the last file's number and that file has been
   sent and not answered; then that mail, and no other, has the reply.
   */
  lemma ReplyIsStoredExactlyWhen(events: seq<Event>, number: nat, text: string)
    requires Possible(NO_TABLES, events)
    ensures var t := Run(NO_TABLES, events);
            var n := |t.mails|;
            var u := Next(t, TakeIn([Reply(number, text)]));
            if n > 0 && number == n && t.mails[n - 1].status == ReplyPending then
              u == t.(mails := t.mails[n - 1 := t.mails[n - 1].(status := ReplyReceived, response := Some(text))])
            else u == t
  {
    hide Next, Enabled, Possible, Run, Deliverable;
    RunHolds(events);
    StoreExactly(Run(NO_TABLES, events), number, text);
  }

  lemma StoreExactly(t: Tables, number: nat, text: string)
    requires Paired(t) && OneAtATime(t.mails)
    ensures var n := |t.mails|;
            var u := Next(t, TakeIn([Reply(number, text)]));
            if n > 0 && number == n && t.mails[n - 1].status == ReplyPending then
              u == t.(mails := t.mails[n - 1 := t.mails[n - 1].(status := ReplyReceived, response := Some(text))])
            else u == t
  {
    hide MailGood, LicencesNumbered;
    NumberedFromOne(t.licences, number);
    var messages := [Reply(number, text)];
    assert messages[1..] == [];
    assert ReplyStored(t, number, text).Some? ==> RepliesStored(ReplyStored(t, number, text).value, []) == ReplyStored(t, number, text);
  }

  /**
   In every run an answered file leaves the loop exactly when ICMS takes its callback: passing on moves
   the last mail to `reply_sent` if its reply is valid, its callback can be built and is accepted, and
   else changes nothing.
   */
  lemma AnswerIsPassedOnExactlyWhen(events: seq<Event>, posted: bool)
    requires Possible(NO_TABLES, events)
    ensures var t := Run(NO_TABLES, events);
            var n := |t.mails|;
            var u := Next(t, PassOn(posted));
            if n > 0 && t.mails[n - 1].status == ReplyReceived && posted && Answerable(t, t.mails[n - 1]) then
              u == t.(mails := t.mails[n - 1 := t.mails[n - 1].(status := ReplySent)])
            else u == t
  {
    hide Next, Enabled, Possible, Run, Deliverable, Answerable;
    RunHolds(events);
    PassExactly(Run(NO_TABLES, events), posted);
  }

  lemma PassExactly(t: Tables, posted: bool)
    requires OneAtATime(t.mails)
    ensures var n := |t.mails|;
            var u := Next(t, PassOn(posted));
            if n > 0 && t.mails[n - 1].status == ReplyReceived && posted && Answerable(t, t.mails[n - 1]) then
              u == t.(mails := t.mails[n - 1 := t.mails[n - 1].(status := ReplySent)])
            else u == t
  {
    hide Answerable, Deliverable;
    var admits := LicenceDataWith(ReplyReceived);
    var received := Positions(t.mails, admits);
    PositionsAtMostOne(t.mails, admits);
    if t.mails != [] {
      var last := |t.mails| - 1;
      assert MailGood(t.mails[last]);
      assert admits(t.mails[last]) ==> last in received;
      assert received != [] ==> admits(t.mails[received[0]]) && received[0] == last;
    }
  }
}
