/**
 Whole runs of the mail workflow: what every run keeps, and what only those runs keep in which a
 poll or a LITE send starts when no finalising task is outstanding.
 */
module WorkflowRuns {
  import opened Text
  import opened MailTables
  import opened RunNumbers
  import opened MailWorkflow
  import LicenceReply

  datatype Event =
    | Poll(emails: seq<Incoming>, files: Files)
    | SendLite(valid: bool)
    | Deliver(sending: nat)
    | GiveUp(sending: nat)
    | LiteAnswers(usage: nat)
    | NewPayload(payload: LicenceReply.Payload)

  predicate Enabled(t: Tables, e: Event) {
    match e
    case Poll(_, _) => true
    case SendLite(_) => true
    case Deliver(k) => k < |t.sendings| && t.sendings[k].mail < |t.mails|
    case GiveUp(k) => k < |t.sendings|
    case LiteAnswers(k) => k < |t.usages| && t.usages[k].mail < |t.mails| && t.usages[k].hasLiteData == Some(true)
    case NewPayload(_) => true
  }

  function Next(t: Tables, e: Event): Tables
    requires Enabled(t, e)
  {
    match e
    case Poll(emails, files) => Polled(t, emails, files).tables
    case SendLite(valid) => LiteSent(t, valid)
    case Deliver(k) => Finalised(t, k)
    case GiveUp(k) => GivenUp(t, k)
    case LiteAnswers(k) => ResponseSaved(t, k)
    case NewPayload(payload) => PayloadSaved(t, payload)
  }

  predicate Possible(t: Tables, events: seq<Event>)
    decreases |events|
  {
    events == [] || (Enabled(t, events[0]) && Possible(Next(t, events[0]), events[1..]))
  }

  function Run(t: Tables, events: seq<Event>): Tables
    requires Possible(t, events)
    decreases |events|
  {
    if events == [] then t else Run(Next(t, events[0]), events[1..])
  }

  /** The guard: nothing starts while a finalising task is outstanding. */
  predicate MayStart(t: Tables, e: Event) {
    e.Poll? || e.SendLite? ==> t.sendings == []
  }

  predicate Guarded(t: Tables, events: seq<Event>)
    requires Possible(t, events)
    decreases |events|
  {
    events == [] || (MayStart(t, events[0]) && Guarded(Next(t, events[0]), events[1..]))
  }

  // ---------------------------------------------------------------- what every run keeps

  predicate MailSound(m: Mail) {
    match m.extractType
    case LicenceDataType => m.response.None? && m.status != ReplyReceived && (m.status != Pending ==> m.sent)
    case LicenceReplyType =>
      m.response.Some? && m.status in ANSWERED && m.sent && (m.status == ReplySent ==> m.responseSent)
    case UsageDataType => m.status != ReplyPending
    case UsageReplyType => false
  }

  predicate MailsSound(mails: seq<Mail>) {
    forall m :: 0 <= m < |mails| ==> MailSound(mails[m])
  }

  /** No email is stored twice as a mail that still waits for its reply. */
  predicate EmailsStoredOnce(mails: seq<Mail>) {
    forall i, j :: 0 <= i < j < |mails| && mails[i].extractType == mails[j].extractType
                   && mails[j].extractType != LicenceReplyType && mails[j].content.Email?
                   ==> mails[i].content != mails[j].content
  }

  predicate RowsSound(t: Tables) {
    && (forall k :: 0 <= k < |t.licences| ==> t.licences[k].mail < |t.mails| && t.mails[t.licences[k].mail].extractType != UsageDataType)
    && (forall k :: 0 <= k < |t.usages| ==> t.usages[k].mail < |t.mails| && t.mails[t.usages[k].mail].extractType == UsageDataType)
    && (forall k :: 0 <= k < |t.sendings| ==> t.sendings[k].mail < |t.mails|)
  }

  predicate Sound(t: Tables) {
    MailsSound(t.mails) && EmailsStoredOnce(t.mails) && RowsSound(t)
  }

  /** A mail is replaced by one of the same kind, or a licence mail by its reply. */
  lemma SetMailKeepsSound(t: Tables, k: nat, m: Mail)
    requires Sound(t) && k < |t.mails| && MailSound(m) && m.content == t.mails[k].content
    requires m.extractType == t.mails[k].extractType
             || (t.mails[k].extractType == LicenceDataType && m.extractType == LicenceReplyType)
    ensures Sound(t.(mails := t.mails[k := m]))
  {
  }

  lemma AddMailKeepsSound(t: Tables, extractType: ExtractType, content: Content)
    requires Sound(t) && extractType in {LicenceDataType, UsageDataType}
    requires content.Email? ==> Positions(t.mails, Same(extractType, content)) == []
    ensures Sound(t.(mails := t.mails + [NewMail(extractType, content)]))
  {
    var same := Same(extractType, content);
    forall i | 0 <= i < |t.mails| && content.Email? && t.mails[i].extractType == extractType
      ensures t.mails[i].content != content
    {
      assert same(t.mails[i]) ==> i in Positions(t.mails, same);
    }
  }

  /** Of all the mails with an email's text, at most one still waits; so none is ever retried. */
  lemma DuplicatesAreOne(t: Tables, extractType: ExtractType, raw: string)
    requires Sound(t) && extractType in {LicenceDataType, UsageDataType}
    ensures var duplicates := Positions(t.mails, Same(extractType, Email(raw)));
            |duplicates| <= 1 && (extractType == LicenceDataType && duplicates != [] ==> !WasRejected(t.mails[duplicates[0]]))
  {
    var duplicates := Positions(t.mails, Same(extractType, Email(raw)));
    PositionsAtMostOne(t.mails, Same(extractType, Email(raw)));
    if duplicates != [] {
      assert MailSound(t.mails[duplicates[0]]);
    }
  }

  lemma AddLicenceRowKeepsSound(t: Tables, row: LicenceRow)
    requires Sound(t) && row.mail < |t.mails| && t.mails[row.mail].extractType != UsageDataType
    ensures Sound(AddLicenceRow(t, row))
  {
  }

  lemma SaveLicenceDataKeepsSound(t: Tables, raw: string, source: Source, given: nat)
    requires Sound(t)
    ensures SaveLicenceData(t, raw, source, given).Done? && Sound(SaveLicenceData(t, raw, source, given).tables)
  {
    hide Sound, AddLicenceRow, NewHmrcRunNumber, WasRejected;
    DuplicatesAreOne(t, LicenceDataType, raw);
    var duplicates := Positions(t.mails, Same(LicenceDataType, Email(raw)));
    var number := NewHmrcRunNumber(t.licences, given);
    if duplicates != [] {
      AddLicenceRowKeepsSound(t, LicenceRow(number, Some(given), source, duplicates[0], {}));
    } else {
      AddMailKeepsSound(t, LicenceDataType, Email(raw));
      AddLicenceRowKeepsSound(t.(mails := t.mails + [NewMail(LicenceDataType, Email(raw))]),
                              LicenceRow(number, Some(given), source, |t.mails|, {}));
    }
  }

  lemma AddUsageRowKeepsSound(t: Tables, row: UsageRow)
    requires Sound(t) && row.mail < |t.mails| && t.mails[row.mail].extractType == UsageDataType
    ensures Sound(t.(usages := t.usages + [row]))
  {
  }

  lemma SaveUsageDataKeepsSound(t: Tables, raw: string, given: nat, lite: Option<bool>, spire: Option<bool>)
    requires Sound(t)
    ensures var r := SaveUsageData(t, raw, given, lite, spire); r.Done? && Sound(r.tables)
  {
    DuplicatesAreOne(t, UsageDataType, raw);
    var duplicates := Positions(t.mails, Same(UsageDataType, Email(raw)));
    if duplicates == [] {
      AddMailKeepsSound(t, UsageDataType, Email(raw));
      var row := UsageRow(NewSpireRunNumber(t.usages, given), given, |t.mails|, lite, spire, false);
      AddUsageRowKeepsSound(t.(mails := t.mails + [NewMail(UsageDataType, Email(raw))]), row);
    }
  }

  /** No usage mail is ever in flight. */
  lemma NoUsageInFlight(t: Tables)
    requires Sound(t)
    ensures FindMailOf(t.mails, {UsageDataType}) == Nothing
  {
    assert forall m :: 0 <= m < |t.mails| ==> MailSound(t.mails[m]);
    PositionsNone(t.mails, InFlight({UsageDataType}));
  }

  lemma InFlightIsLicenceData(t: Tables)
    requires Sound(t)
    ensures var r := FindMailOf(t.mails, LICENCE_TYPES);
            r.Chosen? ==> t.mails[r.mail].extractType == LicenceDataType && t.mails[r.mail].status == ReplyPending
  {
    var found := Positions(t.mails, InFlight(LICENCE_TYPES));
    if |found| == 1 {
      assert MailSound(t.mails[found[0]]);
    }
  }

  lemma SerializedKeepsSound(t: Tables, email: Incoming)
    requires Sound(t)
    ensures Sound(Serialized(t, email).tables)
    ensures Serialized(t, email).tables.sendings == t.sendings
    ensures Serialized(t, email).Raised? ==> email.LicenceReplyEmail? && FindMailOf(t.mails, LICENCE_TYPES) == Failure
  {
    match email
    case LicenceDataEmail(raw, source, given, acceptable) => SaveLicenceDataKeepsSound(t, raw, source, given);
    case UsageDataEmail(raw, given, lite, spire, acceptable) => SaveUsageDataKeepsSound(t, raw, given, lite, spire);
    case LicenceReplyEmail(number, text) =>
      InFlightIsLicenceData(t);
      var found := MailForLicenceReply(t, number);
      if found.Chosen? {
        assert MailSound(t.mails[found.mail]);
        SetMailKeepsSound(t, found.mail, WithReply(t.mails[found.mail], LicenceReplyType, text));
      }
    case UsageReplyEmail(number, text) => NoUsageInFlight(t);
    case OtherEmail =>
  }

  lemma {:induction false} SerializedAllKeepsSound(t: Tables, emails: seq<Incoming>)
    requires Sound(t)
    ensures Sound(SerializedAll(t, emails).tables) && SerializedAll(t, emails).tables.sendings == t.sendings
    decreases |emails|
  {
    hide Sound, Serialized;
    if emails != [] {
      SerializedKeepsSound(t, emails[0]);
      if Serialized(t, emails[0]).Done? {
        SerializedAllKeepsSound(Serialized(t, emails[0]).tables, emails[1..]);
      }
    }
  }

  lemma UpdatedMailKeepsSound(t: Tables, m: nat)
    requires Sound(t) && m < |t.mails|
    ensures Sound(UpdatedMail(t, m))
  {
    assert MailSound(t.mails[m]);
    SetMailKeepsSound(t, m, Updated(t.mails[m]));
  }

  lemma RoutedKeepsSound(t: Tables, choice: Choice, files: Files)
    requires Sound(t) && (choice.Chosen? ==> choice.mail < |t.mails|)
    ensures Sound(Routed(t, choice, files).tables)
  {
    hide MessageFor, MailsSound, EmailsStoredOnce;
    if choice.Chosen? {
      UpdatedMailKeepsSound(t, choice.mail);
    }
  }

  lemma PolledKeepsSound(t: Tables, emails: seq<Incoming>, files: Files)
    requires Sound(t)
    ensures Sound(Polled(t, emails, files).tables)
  {
    hide Sound, Routed, Selected, PendingMessage, SerializedAll;
    if emails == [] {
      RoutedKeepsSound(t, PendingMessage(t), files);
    } else {
      SerializedAllKeepsSound(t, emails);
      var u := SerializedAll(t, emails).tables;
      RoutedKeepsSound(u, Selected(u), files);
    }
  }

  lemma FinalisedKeepsSound(t: Tables, k: nat)
    requires Sound(t) && k < |t.sendings| && t.sendings[k].mail < |t.mails|
    ensures Sound(Finalised(t, k))
  {
    hide MailsSound, EmailsStoredOnce, Updated;
    UpdatedMailKeepsSound(t, t.sendings[k].mail);
  }

  lemma LiteSentKeepsSound(t: Tables, valid: bool)
    requires Sound(t)
    ensures Sound(LiteSent(t, valid))
  {
    hide MailsSound, EmailsStoredOnce, NextLiteNumber;
    AddMailKeepsSound(t, LicenceDataType, Built(NextLiteNumber(t.licences)));
  }

  lemma ResponseSavedKeepsSound(t: Tables, k: nat)
    requires Sound(t) && k < |t.usages| && t.usages[k].mail < |t.mails|
    ensures Sound(ResponseSaved(t, k))
  {
    var m := t.usages[k].mail;
    assert MailSound(t.mails[m]);
    SetMailKeepsSound(t, m, t.mails[m].(status := ReplyReceived));
  }

  lemma NextKeepsSound(t: Tables, e: Event)
    requires Sound(t) && Enabled(t, e)
    ensures Sound(Next(t, e))
  {
    hide MailsSound, EmailsStoredOnce, Polled, LiteSent, Finalised, ResponseSaved;
    match e
    case Poll(emails, files) => PolledKeepsSound(t, emails, files);
    case SendLite(valid) => LiteSentKeepsSound(t, valid);
    case Deliver(k) => FinalisedKeepsSound(t, k);
    case GiveUp(k) =>
    case LiteAnswers(k) => ResponseSavedKeepsSound(t, k);
    case NewPayload(payload) =>
  }

  lemma {:induction false} RunKeepsSound(t: Tables, events: seq<Event>)
    requires Sound(t) && Possible(t, events)
    ensures Sound(Run(t, events))
    decreases |events|
  {
    hide Sound, Next, Enabled;
    if events != [] {
      NextKeepsSound(t, events[0]);
      RunKeepsSound(Next(t, events[0]), events[1..]);
    }
  }

  /**
   In every run, guarded or not: a usage reply changes nothing, whatever its number; and a licence
   file that comes again is never taken for a retry of a rejected one.
   */
  lemma UsageRepliesAreDropped(events: seq<Event>, number: nat, text: string)
    requires Possible(NO_TABLES, events)
    ensures var t := Run(NO_TABLES, events);
            Serialized(t, UsageReplyEmail(number, text)) == Done(t)
  {
    RunKeepsSound(NO_TABLES, events);
    OthersChangeNothing(Run(NO_TABLES, events), UsageReplyEmail(number, text));
  }

  lemma RetryIsNeverTaken(events: seq<Event>, raw: string)
    requires Possible(NO_TABLES, events)
    ensures var t := Run(NO_TABLES, events);
            var duplicates := Positions(t.mails, Same(LicenceDataType, Email(raw)));
            |duplicates| <= 1 && (duplicates != [] ==> !WasRejected(t.mails[duplicates[0]]))
  {
    RunKeepsSound(NO_TABLES, events);
    DuplicatesAreOne(Run(NO_TABLES, events), LicenceDataType, raw);
  }

  // ---------------------------------------------------------------- what guarded runs keep

  predicate Licence(m: Mail) {
    m.extractType in LICENCE_TYPES
  }

  /** A licence mail with status `later` may follow one with status `earlier`. */
  predicate Ahead(earlier: Status, later: Status) {
    match later
    case Pending => true
    case ReplyPending => earlier in ANSWERED
    case ReplyReceived => earlier in ANSWERED
    case ReplySent => earlier == ReplySent
  }

  /**
   Licence files leave, are answered, and have their answers passed on in the order in which they
   were created, and one file is in flight at a time.
   */
  predicate Staged(mails: seq<Mail>) {
    forall i, j :: 0 <= i < j < |mails| && Licence(mails[i]) && Licence(mails[j]) ==> Ahead(mails[i].status, mails[j].status)
  }

  predicate NoneSentUnanswered(mails: seq<Mail>) {
    forall m :: 0 <= m < |mails| && mails[m].extractType == LicenceDataType ==> mails[m].status != ReplySent
  }

  /** The licence mails before `m` have got as far as one of `stages`. */
  predicate Before(mails: seq<Mail>, m: nat, stages: set<Status>)
    requires m <= |mails|
  {
    forall i :: 0 <= i < m && Licence(mails[i]) ==> mails[i].status in stages
  }

  predicate MayFinalise(mails: seq<Mail>, m: nat)
    requires m < |mails|
  {
    match mails[m].extractType
    case LicenceDataType => mails[m].status == Pending && Before(mails, m, ANSWERED)
    case LicenceReplyType => mails[m].status == ReplyReceived && Before(mails, m, {ReplySent})
    case _ => true
  }

  predicate OneSending(t: Tables) {
    && |t.sendings| <= 1
    && forall k :: 0 <= k < |t.sendings| ==> t.sendings[k].mail < |t.mails| && MayFinalise(t.mails, t.sendings[k].mail)
  }

  predicate InOrder(t: Tables) {
    Sound(t) && Staged(t.mails) && NoneSentUnanswered(t.mails) && OneSending(t)
  }

  /** The state a poll or a LITE send starts in. */
  predicate Idle(t: Tables) {
    Sound(t) && Staged(t.mails) && NoneSentUnanswered(t.mails) && t.sendings == []
  }

  lemma AddMailKeepsStaged(mails: seq<Mail>, m: Mail)
    requires Staged(mails) && NoneSentUnanswered(mails) && m.status == Pending
    ensures Staged(mails + [m]) && NoneSentUnanswered(mails + [m])
  {
  }

  lemma SetUsageKeepsStaged(mails: seq<Mail>, k: nat, m: Mail)
    requires Staged(mails) && NoneSentUnanswered(mails) && k < |mails|
    requires mails[k].extractType == UsageDataType && m.extractType == UsageDataType
    ensures Staged(mails[k := m]) && NoneSentUnanswered(mails[k := m])
  {
  }

  lemma SetLicenceKeepsStaged(mails: seq<Mail>, k: nat, m: Mail)
    requires Staged(mails) && NoneSentUnanswered(mails) && k < |mails| && Licence(mails[k]) && Licence(m)
    requires m.extractType == LicenceDataType ==> m.status != ReplySent
    requires forall i :: 0 <= i < k && Licence(mails[i]) ==> Ahead(mails[i].status, m.status)
    requires forall j :: k < j < |mails| && Licence(mails[j]) ==> Ahead(m.status, mails[j].status)
    ensures Staged(mails[k := m]) && NoneSentUnanswered(mails[k := m])
  {
  }

  lemma OneInFlight(t: Tables)
    requires Sound(t) && Staged(t.mails)
    ensures |Positions(t.mails, InFlight(LICENCE_TYPES))| <= 1
    ensures FindMailOf(t.mails, LICENCE_TYPES) != Failure
  {
    PositionsAtMostOne(t.mails, InFlight(LICENCE_TYPES));
  }

  /** What saving a new email does to the mails: nothing, or a pending mail more. */
  lemma NewEmailOnlyAddsAMail(t: Tables, email: Incoming)
    requires email.LicenceDataEmail? || email.UsageDataEmail?
    ensures var mails := Serialized(t, email).tables.mails;
            mails == t.mails || exists m: Mail :: m.status == Pending && mails == t.mails + [m]
  {
    hide Positions, NewHmrcRunNumber, NewSpireRunNumber, WasRejected;
    assert NewMail(LicenceDataType, Content.Email(email.raw)).status == Pending;
    assert NewMail(UsageDataType, Content.Email(email.raw)).status == Pending;
  }

  lemma ReplyKeepsStaged(t: Tables, number: nat, text: string)
    requires Sound(t) && Staged(t.mails) && NoneSentUnanswered(t.mails)
    ensures var r := Serialized(t, LicenceReplyEmail(number, text));
            r.Done? && Staged(r.tables.mails) && NoneSentUnanswered(r.tables.mails)
  {
    hide Positions, Sound, LastLicence, LicencesNumbered;
    OneInFlight(t);
    InFlightIsLicenceData(t);
    var found := MailForLicenceReply(t, number);
    if found.Chosen? {
      SetLicenceKeepsStaged(t.mails, found.mail, WithReply(t.mails[found.mail], LicenceReplyType, text));
    }
  }

  lemma OthersChangeNothing(t: Tables, email: Incoming)
    requires Sound(t) && (email.UsageReplyEmail? || email.OtherEmail?)
    ensures Serialized(t, email) == Done(t)
  {
    NoUsageInFlight(t);
  }

  lemma SerializedKeepsIdle(t: Tables, email: Incoming)
    requires Idle(t)
    ensures Idle(Serialized(t, email).tables) && Serialized(t, email).Done?
  {
    hide Sound, Staged, NoneSentUnanswered, Serialized;
    SerializedKeepsSound(t, email);
    match email
    case LicenceReplyEmail(number, text) => ReplyKeepsStaged(t, number, text);
    case UsageReplyEmail(number, text) => OthersChangeNothing(t, email);
    case OtherEmail => OthersChangeNothing(t, email);
    case _ =>
      NewEmailOnlyAddsAMail(t, email);
      var mails := Serialized(t, email).tables.mails;
      if mails != t.mails {
        var m: Mail :| m.status == Pending && mails == t.mails + [m];
        AddMailKeepsStaged(t.mails, m);
      }
  }

  lemma {:induction false} SerializedAllKeepsIdle(t: Tables, emails: seq<Incoming>)
    requires Idle(t)
    ensures SerializedAll(t, emails).Done? && Idle(SerializedAll(t, emails).tables)
    decreases |emails|
  {
    hide Idle, Serialized;
    if emails != [] {
      SerializedKeepsIdle(t, emails[0]);
      SerializedAllKeepsIdle(Serialized(t, emails[0]).tables, emails[1..]);
    }
  }

  lemma SelectedMayFinalise(t: Tables)
    requires Idle(t) && Selected(t).Chosen?
    ensures MayFinalise(t.mails, Selected(t).mail)
  {
    hide EmailsStoredOnce, RowsSound;
    var m := Selected(t).mail;
    var received := Positions(t.mails, WithStatus(ReplyReceived));
    var waiting := Positions(t.mails, WithStatus(ReplyPending));
    var pending := Positions(t.mails, WithStatus(Pending));
    if Licence(t.mails[m]) {
      assert MailSound(t.mails[m]);
      if received != [] {
        forall i | 0 <= i < m && Licence(t.mails[i])
          ensures t.mails[i].status == ReplySent
        {
          assert Ahead(t.mails[i].status, t.mails[m].status);
          assert WithStatus(ReplyReceived)(t.mails[i]) ==> i in received;
        }
      } else {
        assert waiting == [];
        forall i | 0 <= i < m && Licence(t.mails[i])
          ensures t.mails[i].status in ANSWERED
        {
          assert WithStatus(ReplyPending)(t.mails[i]) ==> i in waiting;
          assert WithStatus(Pending)(t.mails[i]) ==> i in pending;
        }
      }
    }
  }

  lemma PendingMayFinalise(t: Tables)
    requires Idle(t) && PendingMessage(t).Chosen?
    ensures MayFinalise(t.mails, PendingMessage(t).mail)
  {
    hide EmailsStoredOnce, RowsSound;
    var m := PendingMessage(t).mail;
    var pending := Positions(t.mails, WithStatus(Pending));
    var flying := Positions(t.mails, LicenceDataWith(ReplyPending));
    assert WithStatus(Pending)(t.mails[m]) && MailSound(t.mails[m]);
    if Licence(t.mails[m]) {
      forall i | 0 <= i < m && Licence(t.mails[i])
        ensures t.mails[i].status in ANSWERED
      {
        assert MailSound(t.mails[i]);
        assert WithStatus(Pending)(t.mails[i]) ==> i in pending;
        assert LicenceDataWith(ReplyPending)(t.mails[i]) ==> i in flying;
      }
    }
  }

  lemma UpdatedKeepsStaged(mails: seq<Mail>, m: nat)
    requires MailsSound(mails) && Staged(mails) && NoneSentUnanswered(mails) && m < |mails| && MayFinalise(mails, m)
    ensures Staged(mails[m := Updated(mails[m])]) && NoneSentUnanswered(mails[m := Updated(mails[m])])
  {
    assert MailSound(mails[m]);
    if Licence(mails[m]) {
      SetLicenceKeepsStaged(mails, m, Updated(mails[m]));
    } else {
      SetUsageKeepsStaged(mails, m, Updated(mails[m]));
    }
  }

  lemma RoutedKeepsOrder(t: Tables, choice: Choice, files: Files)
    requires Idle(t)
    requires choice.Chosen? ==> choice.mail < |t.mails| && MayFinalise(t.mails, choice.mail)
    ensures InOrder(Routed(t, choice, files).tables)
  {
    assert MailsSound(t.mails);
    hide Staged, NoneSentUnanswered, MayFinalise, MessageFor, Sound;
    assert OneSending(t);
    if choice.Chosen? {
      RoutedKeepsSound(t, choice, files);
      UpdatedKeepsStaged(t.mails, choice.mail);
    }
  }

  lemma PolledKeepsOrder(t: Tables, emails: seq<Incoming>, files: Files)
    requires InOrder(t) && t.sendings == []
    ensures InOrder(Polled(t, emails, files).tables)
    ensures emails != [] ==> SerializedAll(t, emails).Done?
  {
    hide Sound, Staged, NoneSentUnanswered, MayFinalise, Selected, PendingMessage, Routed, SerializedAll;
    if emails == [] {
      if PendingMessage(t).Chosen? { PendingMayFinalise(t); }
      RoutedKeepsOrder(t, PendingMessage(t), files);
    } else {
      SerializedAllKeepsIdle(t, emails);
      var u := SerializedAll(t, emails).tables;
      if Selected(u).Chosen? { SelectedMayFinalise(u); }
      RoutedKeepsOrder(u, Selected(u), files);
    }
  }

  lemma FinalisedKeepsOrder(t: Tables, k: nat)
    requires InOrder(t) && k < |t.sendings|
    ensures InOrder(Finalised(t, k))
  {
    hide Staged, NoneSentUnanswered, MayFinalise, EmailsStoredOnce;
    FinalisedKeepsSound(t, k);
    UpdatedKeepsStaged(t.mails, t.sendings[k].mail);
    assert Finalised(t, k).sendings == [];
  }

  lemma LiteSentKeepsOrder(t: Tables, valid: bool)
    requires InOrder(t) && t.sendings == []
    ensures InOrder(LiteSent(t, valid))
  {
    LiteSentKeepsSound(t, valid);
    AddMailKeepsStaged(t.mails, NewMail(LicenceDataType, Built(NextLiteNumber(t.licences))));
  }

  lemma ResponseSavedKeepsOrder(t: Tables, k: nat)
    requires InOrder(t) && k < |t.usages|
    ensures InOrder(ResponseSaved(t, k))
  {
    hide EmailsStoredOnce, MailsSound, Staged, NoneSentUnanswered;
    ResponseSavedKeepsSound(t, k);
    var m := t.usages[k].mail;
    SetUsageKeepsStaged(t.mails, m, t.mails[m].(status := ReplyReceived));
    var u := ResponseSaved(t, k);
    forall s | 0 <= s < |u.sendings|
      ensures u.sendings[s].mail < |u.mails| && MayFinalise(u.mails, u.sendings[s].mail)
    {
      assert MayFinalise(t.mails, t.sendings[s].mail);
    }
  }

  lemma NextKeepsOrder(t: Tables, e: Event)
    requires InOrder(t) && Enabled(t, e) && MayStart(t, e)
    ensures InOrder(Next(t, e))
  {
    hide Staged, NoneSentUnanswered, MayFinalise, Sound, Polled, LiteSent, Finalised, ResponseSaved;
    NextKeepsSound(t, e);
    match e
    case Poll(emails, files) => PolledKeepsOrder(t, emails, files);
    case SendLite(valid) => LiteSentKeepsOrder(t, valid);
    case Deliver(k) => FinalisedKeepsOrder(t, k);
    case GiveUp(k) => assert Next(t, e).sendings == [];
    case LiteAnswers(k) => ResponseSavedKeepsOrder(t, k);
    case NewPayload(payload) =>
  }

  lemma {:induction false} RunKeepsOrder(t: Tables, events: seq<Event>)
    requires InOrder(t) && Possible(t, events) && Guarded(t, events)
    ensures InOrder(Run(t, events))
    decreases |events|
  {
    hide InOrder, Next, Enabled, MayStart;
    if events != [] {
      NextKeepsOrder(t, events[0]);
      RunKeepsOrder(Next(t, events[0]), events[1..]);
    }
  }

  /**
   In every guarded run: at most one licence mail is in flight, so the single-row lookup of a
   reply's mail never meets two; the licence mails are staged in creation order; and a licence mail
   is `reply_sent` only with its file sent, a reply stored and that reply passed on.
   */
  lemma GuardedRunsAreSafe(events: seq<Event>)
    requires Possible(NO_TABLES, events) && Guarded(NO_TABLES, events)
    ensures var t := Run(NO_TABLES, events);
            && |Positions(t.mails, InFlight(LICENCE_TYPES))| <= 1
            && FindMailOf(t.mails, LICENCE_TYPES) != Failure
            && Staged(t.mails)
            && forall m :: 0 <= m < |t.mails| && Licence(t.mails[m]) && t.mails[m].status == ReplySent ==>
                 t.mails[m].sent && t.mails[m].response.Some? && t.mails[m].responseSent
  {
    RunKeepsOrder(NO_TABLES, events);
    var t := Run(NO_TABLES, events);
    OneInFlight(t);
    forall m | 0 <= m < |t.mails| && Licence(t.mails[m]) && t.mails[m].status == ReplySent
      ensures t.mails[m].sent && t.mails[m].response.Some? && t.mails[m].responseSent
    {
      assert MailSound(t.mails[m]);
    }
  }

  /** The non-`pending` licence mails form a prefix of the licence mails. */
  lemma SentFilesAreAPrefix(events: seq<Event>, i: nat, j: nat)
    requires Possible(NO_TABLES, events) && Guarded(NO_TABLES, events)
    requires i < j < |Run(NO_TABLES, events).mails|
    requires Licence(Run(NO_TABLES, events).mails[i]) && Licence(Run(NO_TABLES, events).mails[j])
    ensures Run(NO_TABLES, events).mails[j].status != Pending ==> Run(NO_TABLES, events).mails[i].status in ANSWERED
  {
    GuardedRunsAreSafe(events);
    var mails := Run(NO_TABLES, events).mails;
    assert Ahead(mails[i].status, mails[j].status);
  }

  /** Taking emails in never raises in a guarded run. */
  lemma EmailsAreTakenIn(events: seq<Event>, emails: seq<Incoming>)
    requires Possible(NO_TABLES, events) && Guarded(NO_TABLES, events)
    requires Run(NO_TABLES, events).sendings == []
    ensures SerializedAll(Run(NO_TABLES, events), emails).Done?
  {
    RunKeepsOrder(NO_TABLES, events);
    SerializedAllKeepsIdle(Run(NO_TABLES, events), emails);
  }
}
