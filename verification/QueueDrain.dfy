/**
 Polls that find no new email clear the queue: the promise of `check_for_pending_messages`.
 */
module QueueDrain {
  import opened Text
  import opened MailTables
  import opened RunNumbers
  import opened MailWorkflow
  import opened WorkflowRuns

  /** A poll without new emails, and then the delivery of what it queued. */
  function Round(t: Tables, files: Files): Tables {
    var u := Polled(t, [], files).tables;
    if u.sendings != [] && u.sendings[0].mail < |u.mails| then Finalised(u, 0) else u
  }

  function Rounds(t: Tables, files: seq<Files>): Tables
    decreases |files|
  {
    if files == [] then t else Rounds(Round(t, files[0]), files[1..])
  }

  function PendingCount(mails: seq<Mail>): nat {
    |Positions(mails, WithStatus(Pending))|
  }

  /** At most one pending licence file, and none while another is in flight. */
  predicate OneLicenceFileAtMost(mails: seq<Mail>) {
    && |Positions(mails, LicenceDataWith(Pending))| <= 1
    && (Positions(mails, LicenceDataWith(Pending)) == [] || Positions(mails, LicenceDataWith(ReplyPending)) == [])
  }

  /** The mail has the one row its message is built from. */
  predicate SingleRow(t: Tables, m: nat)
    requires m < |t.mails|
  {
    match t.mails[m].extractType
    case LicenceDataType => |LicencesOf(t.licences, m)| == 1
    case UsageDataType => |UsagesOf(t.usages, m)| == 1
    case _ => true
  }

  /** Every pending mail has. */
  predicate RowsOwn(t: Tables) {
    forall m :: 0 <= m < |t.mails| && t.mails[m].status == Pending ==> SingleRow(t, m)
  }

  predicate Ready(t: Tables) {
    t.sendings == [] && OneLicenceFileAtMost(t.mails) && RowsOwn(t)
  }

  /** One mail leaves a query's answer, the others stay. */
  lemma {:induction false} PositionsWithout(mails: seq<Mail>, admits: Mail -> bool, k: nat, m: Mail)
    requires k < |mails| && admits(mails[k]) && !admits(m)
    ensures |Positions(mails[k := m], admits)| == |Positions(mails, admits)| - 1
  {
    var n := |mails| - 1;
    if k == n {
      assert mails[k := m][..n] == mails[..n];
    } else {
      assert mails[k := m][..n] == mails[..n][k := m];
      PositionsWithout(mails[..n], admits, k, m);
    }
  }

  lemma {:induction false} PositionsUnmoved(mails: seq<Mail>, admits: Mail -> bool, k: nat, m: Mail)
    requires k < |mails| && admits(mails[k]) == admits(m)
    ensures Positions(mails[k := m], admits) == Positions(mails, admits)
  {
    var n := |mails| - 1;
    if k == n {
      assert mails[k := m][..n] == mails[..n];
    } else {
      assert mails[k := m][..n] == mails[..n][k := m];
      PositionsUnmoved(mails[..n], admits, k, m);
    }
  }

  lemma UpdateKeepsReady(t: Tables, k: nat)
    requires Ready(t) && k < |t.mails| && t.mails[k].status == Pending
    ensures Ready(UpdatedMail(t, k)) && PendingCount(UpdatedMail(t, k).mails) == PendingCount(t.mails) - 1
  {
    hide Positions, LicencesOf, UsagesOf;
    var m := Updated(t.mails[k]);
    PositionsWithout(t.mails, WithStatus(Pending), k, m);
    if t.mails[k].extractType == LicenceDataType {
      PositionsWithout(t.mails, LicenceDataWith(Pending), k, m);
    } else {
      PositionsUnmoved(t.mails, LicenceDataWith(Pending), k, m);
      PositionsUnmoved(t.mails, LicenceDataWith(ReplyPending), k, m);
    }
  }

  /** The first pending mail is chosen, and its message can be built. */
  lemma PollFindsAMail(t: Tables, files: Files)
    requires Ready(t) && PendingCount(t.mails) > 0
    ensures PendingMessage(t).Chosen? && t.mails[PendingMessage(t).mail].status == Pending
    ensures MessageFor(t, PendingMessage(t).mail, files) in {Posted, Recorded}
  {
    var pending := Positions(t.mails, WithStatus(Pending));
    assert WithStatus(Pending)(t.mails[pending[0]]);
    if t.mails[pending[0]].extractType == LicenceDataType {
      assert LicenceDataWith(Pending)(t.mails[pending[0]]);
      assert pending[0] in Positions(t.mails, LicenceDataWith(Pending));
    }
  }

  lemma RoundSendsOne(t: Tables, files: Files)
    requires Ready(t) && PendingCount(t.mails) > 0
    ensures Polled(t, [], files).Done?
    ensures Ready(Round(t, files)) && PendingCount(Round(t, files).mails) == PendingCount(t.mails) - 1
  {
    assert t.sendings == [];
    hide Ready, PendingMessage, MessageFor, PendingCount, Updated;
    PollFindsAMail(t, files);
    var m := PendingMessage(t).mail;
    UpdateKeepsReady(t, m);
    if MessageFor(t, m, files) == Posted {
      var u := Polled(t, [], files).tables;
      assert u.sendings == [SpireSending(m)];
      assert Without(u.sendings, 0) == [];
      assert Round(t, files) == UpdatedMail(t, m);
    }
  }

  lemma EmptyRound(t: Tables, files: Files)
    requires Ready(t) && PendingCount(t.mails) == 0
    ensures Polled(t, [], files) == Done(t) && Round(t, files) == t
  {
  }

  /**
   From a ready state, each poll that finds no new email returns normally and leaves one pending
   mail fewer; so after n such polls, each with its delivery, n pending mails are gone.
   */
  lemma {:induction false} PollsClearTheQueue(t: Tables, files: seq<Files>)
    requires Ready(t)
    ensures Ready(Rounds(t, files))
    ensures PendingCount(Rounds(t, files).mails)
            == if |files| <= PendingCount(t.mails) then PendingCount(t.mails) - |files| else 0
    ensures files != [] ==> Polled(t, [], files[0]).Done?
    decreases |files|
  {
    hide Ready, Round, PendingCount, Polled;
    if files != [] {
      if PendingCount(t.mails) > 0 {
        RoundSendsOne(t, files[0]);
      } else {
        EmptyRound(t, files[0]);
      }
      PollsClearTheQueue(Round(t, files[0]), files[1..]);
    }
  }

  // ---------------------------------------------------------------- the rows of the usage mails

  /** Every usage mail has the one row that was made with it. */
  predicate UsageRowsOwn(t: Tables) {
    && (forall m :: 0 <= m < |t.mails| && t.mails[m].extractType == UsageDataType ==> |UsagesOf(t.usages, m)| == 1)
    && (forall k :: 0 <= k < |t.usages| ==> t.usages[k].mail < |t.mails|)
  }

  lemma {:induction false} NoUsagesYet(rows: seq<UsageRow>, m: nat)
    requires forall k :: 0 <= k < |rows| ==> rows[k].mail < m
    ensures UsagesOf(rows, m) == []
  {
    if rows != [] {
      NoUsagesYet(rows[..|rows| - 1], m);
    }
  }

  lemma UsagesOfPush(rows: seq<UsageRow>, row: UsageRow, m: nat)
    ensures UsagesOf(rows + [row], m) == UsagesOf(rows, m) + if row.mail == m then [row] else []
  {
    assert (rows + [row])[..|rows|] == rows;
  }

  lemma {:induction false} UsagesOfUpdate(rows: seq<UsageRow>, k: nat, row: UsageRow, m: nat)
    requires k < |rows| && row.mail == rows[k].mail
    ensures |UsagesOf(rows[k := row], m)| == |UsagesOf(rows, m)|
  {
    var n := |rows| - 1;
    if k == n {
      assert rows[k := row][..n] == rows[..n];
    } else {
      assert rows[k := row][..n] == rows[..n][k := row];
      UsagesOfUpdate(rows[..n], k, row, m);
    }
  }

  lemma SaveUsageDataKeepsOwn(t: Tables, raw: string, given: nat, lite: Option<bool>, spire: Option<bool>)
    requires UsageRowsOwn(t)
    ensures UsageRowsOwn(SaveUsageData(t, raw, given, lite, spire).tables)
  {
    var u := SaveUsageData(t, raw, given, lite, spire).tables;
    if u != t {
      var row := u.usages[|t.usages|];
      forall m | 0 <= m < |u.mails| && u.mails[m].extractType == UsageDataType
        ensures |UsagesOf(u.usages, m)| == 1
      {
        UsagesOfPush(t.usages, row, m);
        if m == |t.mails| { NoUsagesYet(t.usages, m); }
      }
    }
  }

  lemma SerializedKeepsOwn(t: Tables, email: Incoming)
    requires UsageRowsOwn(t)
    ensures UsageRowsOwn(Serialized(t, email).tables)
  {
    hide UsagesOf, MailForLicenceReply, MailForUsageReply;
    match email
    case UsageDataEmail(raw, given, lite, spire, acceptable) => SaveUsageDataKeepsOwn(t, raw, given, lite, spire);
    case _ =>
  }

  lemma {:induction false} SerializedAllKeepsOwn(t: Tables, emails: seq<Incoming>)
    requires UsageRowsOwn(t)
    ensures UsageRowsOwn(SerializedAll(t, emails).tables)
    decreases |emails|
  {
    hide UsageRowsOwn, Serialized;
    if emails != [] {
      SerializedKeepsOwn(t, emails[0]);
      if Serialized(t, emails[0]).Done? {
        SerializedAllKeepsOwn(Serialized(t, emails[0]).tables, emails[1..]);
      }
    }
  }

  lemma NextKeepsOwn(t: Tables, e: Event)
    requires UsageRowsOwn(t) && Enabled(t, e)
    ensures UsageRowsOwn(Next(t, e))
  {
    hide UsagesOf, Selected, PendingMessage, MessageFor, SerializedAll;
    match e
    case Poll(emails, files) => SerializedAllKeepsOwn(t, emails);
    case LiteAnswers(k) =>
      var u := Next(t, e);
      forall m | 0 <= m < |u.mails| && u.mails[m].extractType == UsageDataType
        ensures |UsagesOf(u.usages, m)| == 1
      {
        UsagesOfUpdate(t.usages, k, t.usages[k].(liteSent := true), m);
      }
    case _ =>
  }

  lemma {:induction false} RunKeepsOwn(t: Tables, events: seq<Event>)
    requires UsageRowsOwn(t) && Possible(t, events)
    ensures UsageRowsOwn(Run(t, events))
    decreases |events|
  {
    hide UsageRowsOwn, Next, Enabled;
    if events != [] {
      NextKeepsOwn(t, events[0]);
      RunKeepsOwn(Next(t, events[0]), events[1..]);
    }
  }

  // ---------------------------------------------------------------- rows of the licence mails

  function TextOf(email: Incoming): seq<string> {
    if email.LicenceDataEmail? && email.acceptable then [email.raw] else []
  }

  /** The texts of the licence emails that pass validation, in the order they come. */
  function TextsOf(emails: seq<Incoming>): seq<string> {
    if emails == [] then [] else TextOf(emails[0]) + TextsOf(emails[1..])
  }

  function LicenceTexts(events: seq<Event>): seq<string> {
    if events == [] then [] else (if events[0].Poll? then TextsOf(events[0].emails) else []) + LicenceTexts(events[1..])
  }

  predicate Distinct(texts: seq<string>) {
    forall i, j :: 0 <= i < j < |texts| ==> texts[i] != texts[j]
  }

  /** None of the texts to come is that of a licence file that is waiting. */
  predicate Unseen(mails: seq<Mail>, texts: seq<string>) {
    forall m, k :: 0 <= m < |mails| && 0 <= k < |texts| && mails[m].extractType == LicenceDataType ==>
      mails[m].content != Email(texts[k])
  }

  /** Every licence mail has the one row that was made with it. */
  predicate LicenceRowsOwn(t: Tables) {
    && (forall m :: 0 <= m < |t.mails| && Licence(t.mails[m]) ==> |LicencesOf(t.licences, m)| == 1)
    && (forall k :: 0 <= k < |t.licences| ==> t.licences[k].mail < |t.mails|)
  }

  lemma {:induction false} NoLicencesYet(rows: seq<LicenceRow>, m: nat)
    requires forall k :: 0 <= k < |rows| ==> rows[k].mail < m
    ensures LicencesOf(rows, m) == []
  {
    if rows != [] {
      NoLicencesYet(rows[..|rows| - 1], m);
    }
  }

  lemma LicencesOfPush(rows: seq<LicenceRow>, row: LicenceRow, m: nat)
    ensures LicencesOf(rows + [row], m) == LicencesOf(rows, m) + if row.mail == m then [row] else []
  {
    assert (rows + [row])[..|rows|] == rows;
  }

  lemma NewLicenceKeepsOwn(t: Tables, mail: Mail, row: LicenceRow)
    requires LicenceRowsOwn(t) && row.mail == |t.mails|
    ensures LicenceRowsOwn(t.(mails := t.mails + [mail], licences := t.licences + [row]))
  {
    var u := t.(mails := t.mails + [mail], licences := t.licences + [row]);
    forall m | 0 <= m < |u.mails| && Licence(u.mails[m])
      ensures |LicencesOf(u.licences, m)| == 1
    {
      LicencesOfPush(t.licences, row, m);
      if m == |t.mails| { NoLicencesYet(t.licences, m); }
    }
  }

  /** A new text makes a new mail with a row of its own. */
  lemma NewTextKeepsOwn(t: Tables, raw: string, source: Source, given: nat, later: seq<string>)
    requires LicenceRowsOwn(t) && Unseen(t.mails, [raw] + later) && Distinct([raw] + later)
    ensures var u := SaveLicenceData(t, raw, source, given).tables;
            LicenceRowsOwn(u) && Unseen(u.mails, later)
  {
    var texts := [raw] + later;
    assert texts[0] == raw;
    PositionsNone(t.mails, Same(LicenceDataType, Email(raw)));
    var u := SaveLicenceData(t, raw, source, given).tables;
    var mail := NewMail(LicenceDataType, Email(raw));
    var row := LicenceRow(NewHmrcRunNumber(t.licences, given), Some(given), source, |t.mails|, {});
    assert row !in t.licences;
    NewLicenceKeepsOwn(t, mail, row);
    forall m, k | 0 <= m < |u.mails| && 0 <= k < |later| && u.mails[m].extractType == LicenceDataType
      ensures u.mails[m].content != Email(later[k])
    {
      assert texts[k + 1] == later[k];
    }
  }

  lemma ReplyKeepsLicenceRows(t: Tables, number: nat, text: string, later: seq<string>)
    requires Sound(t) && LicenceRowsOwn(t) && Unseen(t.mails, later)
    ensures var u := Serialized(t, LicenceReplyEmail(number, text)).tables;
            LicenceRowsOwn(u) && Unseen(u.mails, later)
  {
    InFlightIsLicenceData(t);
    hide Sound, Positions, LicencesOf, LastLicence, LicencesNumbered;
  }

  lemma UsageKeepsLicenceRows(t: Tables, email: Incoming, later: seq<string>)
    requires email.UsageDataEmail? && LicenceRowsOwn(t) && Unseen(t.mails, later)
    ensures var u := Serialized(t, email).tables;
            LicenceRowsOwn(u) && Unseen(u.mails, later)
  {
    hide Positions, LicencesOf;
  }

  lemma SerializedKeepsLicenceRows(t: Tables, email: Incoming, later: seq<string>)
    requires Sound(t) && LicenceRowsOwn(t) && Unseen(t.mails, TextOf(email) + later) && Distinct(TextOf(email) + later)
    ensures var u := Serialized(t, email).tables;
            LicenceRowsOwn(u) && Unseen(u.mails, later)
  {
    assert [] + later == later;
    hide Sound, LicenceRowsOwn, Unseen, Distinct, SaveLicenceData, SaveUsageData;
    match email
    case LicenceDataEmail(raw, source, given, acceptable) =>
      if acceptable {
        NewTextKeepsOwn(t, raw, source, given, later);
      }
    case UsageDataEmail(raw, given, lite, spire, acceptable) => UsageKeepsLicenceRows(t, email, later);
    case LicenceReplyEmail(number, text) => ReplyKeepsLicenceRows(t, number, text, later);
    case UsageReplyEmail(number, text) => OthersChangeNothing(t, email);
    case OtherEmail =>
  }

  lemma TextsSplit(emails: seq<Incoming>, later: seq<string>)
    requires emails != []
    ensures TextsOf(emails) + later == TextOf(emails[0]) + (TextsOf(emails[1..]) + later)
  {
    hide TextOf;
    Assoc(TextOf(emails[0]), TextsOf(emails[1..]), later);
  }

  lemma DistinctSuffix(a: seq<string>, b: seq<string>)
    requires Distinct(a + b)
    ensures Distinct(b)
  {
    forall i, j | 0 <= i < j < |b|
      ensures b[i] != b[j]
    {
      assert (a + b)[|a| + i] == b[i] && (a + b)[|a| + j] == b[j];
    }
  }

  lemma UnseenSuffix(mails: seq<Mail>, a: seq<string>, b: seq<string>)
    requires Unseen(mails, a + b)
    ensures Unseen(mails, b)
  {
    forall m, k | 0 <= m < |mails| && 0 <= k < |b| && mails[m].extractType == LicenceDataType
      ensures mails[m].content != Email(b[k])
    {
      assert (a + b)[|a| + k] == b[k];
    }
  }

  lemma {:induction false} SerializedAllKeepsLicenceRows(t: Tables, emails: seq<Incoming>, later: seq<string>)
    requires Sound(t) && LicenceRowsOwn(t) && Unseen(t.mails, TextsOf(emails) + later) && Distinct(TextsOf(emails) + later)
    ensures var u := SerializedAll(t, emails).tables;
            LicenceRowsOwn(u) && Unseen(u.mails, later)
    decreases |emails|
  {
    hide Sound, LicenceRowsOwn, Unseen, Distinct, Serialized, TextsOf, TextOf;
    if emails == [] {
      NoTexts(later);
    } else {
      var more := TextsOf(emails[1..]) + later;
      TextsSplit(emails, later);
      SerializedKeepsSound(t, emails[0]);
      SerializedKeepsLicenceRows(t, emails[0], more);
      DistinctSuffix(TextOf(emails[0]), more);
      var u := Serialized(t, emails[0]).tables;
      UnseenSuffix(u.mails, TextsOf(emails[1..]), later);
      if Serialized(t, emails[0]).Done? {
        SerializedAllKeepsLicenceRows(u, emails[1..], later);
      }
    }
  }

  lemma NoTexts(later: seq<string>)
    ensures TextsOf([]) + later == later
  {
  }

  /** A mail's progress changes neither its type nor its text, except to a type that no email has. */
  lemma ProgressKeepsLicenceRows(t: Tables, u: Tables, texts: seq<string>)
    requires LicenceRowsOwn(t) && Unseen(t.mails, texts) && u.licences == t.licences && |u.mails| == |t.mails|
    requires forall m :: 0 <= m < |t.mails| ==>
               u.mails[m].extractType == t.mails[m].extractType && u.mails[m].content == t.mails[m].content
    ensures LicenceRowsOwn(u) && Unseen(u.mails, texts)
  {
    hide LicencesOf;
  }

  lemma RoutedKeepsLicenceRows(t: Tables, choice: Choice, files: Files, texts: seq<string>)
    requires LicenceRowsOwn(t) && Unseen(t.mails, texts) && (choice.Chosen? ==> choice.mail < |t.mails|)
    ensures var u := Routed(t, choice, files).tables;
            LicenceRowsOwn(u) && Unseen(u.mails, texts)
  {
    hide LicenceRowsOwn, Unseen, MessageFor;
    ProgressKeepsLicenceRows(t, Routed(t, choice, files).tables, texts);
  }

  lemma PolledKeepsLicenceRows(t: Tables, emails: seq<Incoming>, files: Files, later: seq<string>)
    requires Sound(t) && LicenceRowsOwn(t) && Unseen(t.mails, TextsOf(emails) + later) && Distinct(TextsOf(emails) + later)
    ensures var u := Polled(t, emails, files).tables;
            LicenceRowsOwn(u) && Unseen(u.mails, later)
  {
    hide Sound, LicenceRowsOwn, Unseen, Distinct, TextsOf, SerializedAll, Selected, PendingMessage, Routed;
    SerializedAllKeepsLicenceRows(t, emails, later);
    UnseenSuffix(t.mails, TextsOf(emails), later);
    if emails == [] {
      RoutedKeepsLicenceRows(t, PendingMessage(t), files, later);
    } else {
      var u := SerializedAll(t, emails).tables;
      RoutedKeepsLicenceRows(u, Selected(u), files, later);
    }
  }

  lemma SentKeepsLicenceRows(t: Tables, valid: bool, texts: seq<string>)
    requires LicenceRowsOwn(t) && Unseen(t.mails, texts)
    ensures var u := LiteSent(t, valid);
            LicenceRowsOwn(u) && Unseen(u.mails, texts)
  {
    hide LicencesOf;
    var u := LiteSent(t, valid);
    if u != t {
      NewLicenceKeepsOwn(t, u.mails[|t.mails|], u.licences[|t.licences|]);
    }
  }

  lemma NextKeepsLicenceRows(t: Tables, e: Event, later: seq<string>)
    requires Sound(t) && LicenceRowsOwn(t) && Enabled(t, e)
    requires Unseen(t.mails, LicenceTexts([e]) + later) && Distinct(LicenceTexts([e]) + later)
    ensures LicenceRowsOwn(Next(t, e)) && Unseen(Next(t, e).mails, later)
  {
    OneEvent(e);
    UnseenSuffix(t.mails, LicenceTexts([e]), later);
    hide Sound, LicenceRowsOwn, Unseen, Distinct, TextsOf, LicenceTexts, Polled, LiteSent;
    match e
    case Poll(emails, files) => PolledKeepsLicenceRows(t, emails, files, later);
    case SendLite(valid) => SentKeepsLicenceRows(t, valid, later);
    case _ => ProgressKeepsLicenceRows(t, Next(t, e), later);
  }

  lemma OneEvent(e: Event)
    ensures LicenceTexts([e]) == if e.Poll? then TextsOf(e.emails) else []
  {
    assert [e][1..] == [];
  }

  lemma {:induction false} RunKeepsLicenceRows(t: Tables, events: seq<Event>)
    requires Sound(t) && LicenceRowsOwn(t) && Possible(t, events)
    requires Unseen(t.mails, LicenceTexts(events)) && Distinct(LicenceTexts(events))
    ensures LicenceRowsOwn(Run(t, events))
    decreases |events|
  {
    hide Sound, LicenceRowsOwn, Unseen, Distinct, TextsOf, Next, Enabled;
    if events != [] {
      OneEvent(events[0]);
      var later := LicenceTexts(events[1..]);
      NextKeepsSound(t, events[0]);
      NextKeepsLicenceRows(t, events[0], later);
      DistinctSuffix(LicenceTexts([events[0]]), later);
      RunKeepsLicenceRows(Next(t, events[0]), events[1..]);
    }
  }

  /** After any run in which no licence email comes twice, every pending mail has the one row it needs. */
  lemma RowsStayOwn(events: seq<Event>)
    requires Possible(NO_TABLES, events) && Distinct(LicenceTexts(events))
    ensures RowsOwn(Run(NO_TABLES, events))
  {
    hide Next, Enabled, LicenceTexts, LicencesOf, UsagesOf;
    var t := Run(NO_TABLES, events);
    RunKeepsOwn(NO_TABLES, events);
    RunKeepsSound(NO_TABLES, events);
    RunKeepsLicenceRows(NO_TABLES, events);
    forall m | 0 <= m < |t.mails| && t.mails[m].status == Pending
      ensures SingleRow(t, m)
    {
      assert MailSound(t.mails[m]);
    }
  }

  /**
   After any run in which no licence email came twice, polls without new emails clear the queue,
   provided no finalising task is outstanding and at most one licence file waits or is in flight.
   */
  lemma EveryQueueIsCleared(events: seq<Event>, files: seq<Files>)
    requires Possible(NO_TABLES, events) && Distinct(LicenceTexts(events))
    requires Run(NO_TABLES, events).sendings == [] && OneLicenceFileAtMost(Run(NO_TABLES, events).mails)
    ensures |files| >= PendingCount(Run(NO_TABLES, events).mails) ==>
              PendingCount(Rounds(Run(NO_TABLES, events), files).mails) == 0
  {
    hide Next, Enabled, Rounds, OneLicenceFileAtMost, PendingCount, LicenceTexts, Distinct, RowsOwn;
    RowsStayOwn(events);
    PollsClearTheQueue(Run(NO_TABLES, events), files);
  }

  // ---------------------------------------------------------------- when the queue is not cleared

  /**
   For all tables: a poll without new emails raises exactly when two licence files are pending,
   or the oldest pending mail is a licence file while another is in flight, or it has not exactly
   the one row its message is built from. It then changes nothing.
   */
  lemma PollRaisesExactlyWhen(t: Tables, files: Files)
    ensures Polled(t, [], files).Raised? <==>
            var pending := Positions(t.mails, WithStatus(Pending));
            || |Positions(t.mails, LicenceDataWith(Pending))| > 1
            || (pending != [] && Positions(t.mails, LicenceDataWith(ReplyPending)) != []
                && t.mails[pending[0]].extractType == LicenceDataType)
            || (pending != [] && !SingleRow(t, pending[0]))
    ensures Polled(t, [], files).Raised? ==> Polled(t, [], files).tables == t
  {
    hide Positions, LicencesOf, UsagesOf;
    var pending := Positions(t.mails, WithStatus(Pending));
    assert pending != [] ==> WithStatus(Pending)(t.mails[pending[0]]);
  }

  /** A pending mail that has not the one row it needs. */
  predicate Blocked(t: Tables, m: nat) {
    m < |t.mails| && t.mails[m].status == Pending && !SingleRow(t, m)
  }

  lemma BlockedStays(t: Tables, m: nat, files: Files)
    requires Blocked(t, m) && t.sendings == []
    ensures Blocked(Round(t, files), m) && Round(t, files).sendings == []
  {
    hide Positions, LicencesOf, UsagesOf;
    PollRaisesExactlyWhen(t, files);
    var u := Polled(t, [], files).tables;
    if PendingMessage(t).Chosen? && u.sendings != [] {
      assert Without(u.sendings, 0) == [];
    }
  }

  lemma {:induction false} BlockedForever(t: Tables, m: nat, files: seq<Files>)
    requires Blocked(t, m) && t.sendings == []
    ensures Blocked(Rounds(t, files), m)
    decreases |files|
  {
    hide Blocked, Round;
    if files != [] {
      BlockedStays(t, m, files[0]);
      BlockedForever(Round(t, files[0]), m, files[1..]);
    }
  }

  /**
   Enough polls clear the queue exactly when every pending mail has the one row its message is
   built from. One that has not becomes the oldest, and every poll from then on raises.
   */
  lemma QueueIsClearedExactlyWhen(t: Tables, files: seq<Files>)
    requires t.sendings == [] && OneLicenceFileAtMost(t.mails) && |files| >= PendingCount(t.mails)
    ensures PendingCount(Rounds(t, files).mails) == 0 <==> RowsOwn(t)
  {
    hide Rounds, OneLicenceFileAtMost, SingleRow;
    if RowsOwn(t) {
      PollsClearTheQueue(t, files);
    } else {
      var m: nat :| m < |t.mails| && t.mails[m].status == Pending && !SingleRow(t, m);
      BlockedForever(t, m, files);
      var u := Rounds(t, files);
      assert WithStatus(Pending)(u.mails[m]);
      assert m in Positions(u.mails, WithStatus(Pending));
    }
  }

  // ---------------------------------------------------------------- an email that comes twice

  const REPEATED := LicenceDataEmail("file", Spire, LIMIT, true)

  /** The same email twice, its source number 100000: the second time it gets a second row. */
  function TwoRows(): Tables {
    Tables([NewMail(LicenceDataType, Email("file"))],
           [LicenceRow(LIMIT, Some(LIMIT), Spire, 0, {}), LicenceRow(LIMIT + 1, Some(LIMIT), Spire, 0, {})],
           [], [], {}, {}, [])
  }

  function OneRow(): Tables {
    TwoRows().(licences := TwoRows().licences[..1])
  }

  lemma FirstTime()
    ensures Serialized(NO_TABLES, REPEATED) == Done(OneRow())
  {
    assert TwoRows().licences[..1] == [LicenceRow(LIMIT, Some(LIMIT), Spire, 0, {})];
  }

  lemma SecondTime()
    ensures Serialized(OneRow(), REPEATED) == Done(TwoRows())
  {
    var t := OneRow();
    var first := LicenceRow(LIMIT, Some(LIMIT), Spire, 0, {});
    assert t.licences == [first] && t.licences[..0] == [];
    assert LastLicence(t.licences) == Some(first);
    assert t.mails[..0] == [];
    assert Positions(t.mails, Same(LicenceDataType, Email("file"))) == [0];
  }

  lemma TwoRowsBlock()
    ensures Blocked(TwoRows(), 0)
    ensures Positions(TwoRows().mails, WithStatus(Pending)) == [0]
    ensures Positions(TwoRows().mails, WithStatus(ReplyReceived)) == []
    ensures Positions(TwoRows().mails, WithStatus(ReplyPending)) == []
    ensures OneLicenceFileAtMost(TwoRows().mails)
  {
    var t := TwoRows();
    OneOrNone(t.mails, WithStatus(Pending));
    OneOrNone(t.mails, WithStatus(ReplyReceived));
    OneOrNone(t.mails, WithStatus(ReplyPending));
    OneOrNone(t.mails, LicenceDataWith(Pending));
    OneOrNone(t.mails, LicenceDataWith(ReplyPending));
    TwoRowsOf();
    hide Positions, LicencesOf;
  }

  lemma OneOrNone(mails: seq<Mail>, admits: Mail -> bool)
    requires |mails| == 1
    ensures Positions(mails, admits) == if admits(mails[0]) then [0] else []
  {
    assert mails[..0] == [];
  }

  lemma TwoRowsOf()
    ensures |LicencesOf(TwoRows().licences, 0)| == 2
  {
    var t := TwoRows();
    assert t.licences[..1] == [t.licences[0]] && t.licences[..1][..0] == [];
    assert LicencesOf(t.licences[..1], 0) == [t.licences[0]];
  }

  /**
   One licence email that is taken in twice stops the queue: the run's only poll raises, one
   pending licence file is left, none is in flight, nothing is outstanding, and after any number
   of polls the file is still pending.
   */
  lemma RepeatedEmailStopsTheQueue(files: seq<Files>, f: Files)
    ensures var events := [Poll([REPEATED, REPEATED], f)];
            && Possible(NO_TABLES, events) && Guarded(NO_TABLES, events)
            && var t := Run(NO_TABLES, events);
               && t.sendings == [] && OneLicenceFileAtMost(t.mails) && PendingCount(t.mails) == 1
               && PendingCount(Rounds(t, files).mails) >= 1
  {
    hide Rounds, OneLicenceFileAtMost, Blocked, Serialized;
    FirstTime();
    SecondTime();
    assert [REPEATED, REPEATED][1..] == [REPEATED] && [REPEATED][1..] == [];
    assert SerializedAll(OneRow(), [REPEATED]) == Done(TwoRows());
    assert SerializedAll(NO_TABLES, [REPEATED, REPEATED]) == Done(TwoRows());
    TwoRowsBlock();
    PollStays(f);
    var events := [Poll([REPEATED, REPEATED], f)];
    assert events[1..] == [];
    BlockedForever(TwoRows(), 0, files);
    StillPending(Rounds(TwoRows(), files), 0);
  }

  lemma PollStays(f: Files)
    ensures Routed(TwoRows(), Selected(TwoRows()), f) == Raised(TwoRows())
  {
    hide Positions, LicencesOf;
    TwoRowsBlock();
  }

  lemma StillPending(t: Tables, m: nat)
    requires Blocked(t, m)
    ensures PendingCount(t.mails) >= 1
  {
    assert WithStatus(Pending)(t.mails[m]);
    assert m in Positions(t.mails, WithStatus(Pending));
  }
}
