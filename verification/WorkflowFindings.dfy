/**
 More about the runs of the mail workflow: why the guard is needed, which mail a licence reply is
 stored on, and how the run numbers of a run follow one another.
 */
module WorkflowFindings {
  import opened Text
  import opened MailTables
  import opened RunNumbers
  import opened MailWorkflow
  import opened WorkflowRuns

  // ---------------------------------------------------------------- the guard is needed

  const SOME_FILES := Files(true, true)

  /** A second poll, started before the first one's sending is recorded, sends the same file again. */
  const TWO_POLLS: seq<Event> :=
    [Poll([LicenceDataEmail("file", Spire, 1, true)], SOME_FILES), Poll([], SOME_FILES), Deliver(0), Deliver(0)]

  function OneLicenceMail(status: Status, sent: bool, responseSent: bool, sendings: seq<Sending>): Tables {
    Tables([Mail(LicenceDataType, status, Email("file"), None, sent, responseSent)],
           [LicenceRow(1, Some(1), Spire, 0, {})], [], [], {}, {}, sendings)
  }

  lemma OneStep(t: Tables, e: Event, rest: seq<Event>, u: Tables, events: seq<Event>)
    requires Enabled(t, e) && Next(t, e) == u && events == [e] + rest
    ensures events[1..] == rest
    ensures Possible(t, events) == Possible(u, rest)
    ensures Possible(u, rest) ==> Run(t, events) == Run(u, rest)
  {
    assert events[1..] == rest;
  }

  lemma PositionsOfOne(mails: seq<Mail>, admits: Mail -> bool)
    requires |mails| == 1
    ensures Positions(mails, admits) == if admits(mails[0]) then [0] else []
  {
    assert mails[..0] == [];
  }

  /** What the queries answer about a single licence mail. */
  lemma QueriesOnOne(t: Tables, status: Status, sent: bool, responseSent: bool)
    requires t.mails == OneLicenceMail(status, sent, responseSent, []).mails
    requires t.licences == OneLicenceMail(status, sent, responseSent, []).licences
    requires status == Pending
    ensures Selected(t) == Chosen(0) && PendingMessage(t) == Chosen(0)
    ensures MessageFor(t, 0, SOME_FILES) == Posted
  {
    hide Positions;
    PositionsOfOne(t.mails, WithStatus(Pending));
    PositionsOfOne(t.mails, WithStatus(ReplyReceived));
    PositionsOfOne(t.mails, WithStatus(ReplyPending));
    PositionsOfOne(t.mails, LicenceDataWith(Pending));
    PositionsOfOne(t.mails, LicenceDataWith(ReplyPending));
    RowsOfOne(t.licences[0]);
    hide LicencesOf, UsagesOf;
  }

  lemma RowsOfOne(row: LicenceRow)
    ensures LicencesOf([row], row.mail) == [row]
  {
    assert [row][..0] == [];
  }

  lemma FirstPoll()
    ensures Next(NO_TABLES, TWO_POLLS[0]) == OneLicenceMail(Pending, false, false, [SpireSending(0)])
  {
    var email := LicenceDataEmail("file", Spire, 1, true);
    var u := OneLicenceMail(Pending, false, false, []);
    assert Serialized(NO_TABLES, email) == Done(u);
    assert [email][1..] == [];
    assert SerializedAll(NO_TABLES, [email]) == Done(u);
    QueriesOnOne(u, Pending, false, false);
  }

  lemma SecondPoll()
    ensures Next(OneLicenceMail(Pending, false, false, [SpireSending(0)]), TWO_POLLS[1])
            == OneLicenceMail(Pending, false, false, [SpireSending(0), SpireSending(0)])
  {
    QueriesOnOne(OneLicenceMail(Pending, false, false, [SpireSending(0)]), Pending, false, false);
  }

  /**
   Without the guard a licence mail can be `reply_sent` although no reply was ever stored: the file
   goes out twice, and the second finalising task takes the mail out of `reply_pending`.
   */
  lemma GuardIsNeeded()
    ensures Possible(NO_TABLES, TWO_POLLS) && !Guarded(NO_TABLES, TWO_POLLS)
    ensures var t := Run(NO_TABLES, TWO_POLLS);
            |t.mails| == 1 && Licence(t.mails[0]) && t.mails[0].status == ReplySent && t.mails[0].response.None?
  {
    hide Polled;
    FirstPoll();
    SecondPoll();
    var t1 := OneLicenceMail(Pending, false, false, [SpireSending(0)]);
    var t2 := OneLicenceMail(Pending, false, false, [SpireSending(0), SpireSending(0)]);
    var t3 := OneLicenceMail(ReplyPending, true, false, [SpireSending(0)]);
    var t4 := OneLicenceMail(ReplySent, true, true, []);
    OneStep(NO_TABLES, TWO_POLLS[0], TWO_POLLS[1..], t1, TWO_POLLS);
    OneStep(t1, TWO_POLLS[1], [Deliver(0), Deliver(0)], t2, TWO_POLLS[1..]);
    OneStep(t2, Deliver(0), [Deliver(0)], t3, [Deliver(0), Deliver(0)]);
    OneStep(t3, Deliver(0), [], t4, [Deliver(0)]);
  }

  // ---------------------------------------------------------------- which mail a reply is stored on

  /**
   In a guarded run a licence reply is stored on the one licence mail in flight whatever number it
   gives, unless the latest file of that number has been answered already; then it is dropped.
   */
  lemma ReplyIsStoredOnTheMailInFlight(events: seq<Event>, m: nat, number: nat, text: string)
    requires Possible(NO_TABLES, events) && Guarded(NO_TABLES, events)
    requires m < |Run(NO_TABLES, events).mails|
    requires InFlight(LICENCE_TYPES)(Run(NO_TABLES, events).mails[m])
    ensures var t := Run(NO_TABLES, events);
            var latest := LastLicence(LicencesNumbered(t.licences, number));
            Serialized(t, LicenceReplyEmail(number, text))
            == if latest.Some? && Answered(t.mails, latest.value.mail) then Done(t)
               else Done(t.(mails := t.mails[m := WithReply(t.mails[m], LicenceReplyType, text)]))
  {
    GuardedRunsAreSafe(events);
    assert m in Positions(Run(NO_TABLES, events).mails, InFlight(LICENCE_TYPES));
  }

  // ---------------------------------------------------------------- run numbers

  predicate SameSourceNumber(p: LicenceRow, r: LicenceRow) {
    p.sourceRunNumber.Some? && r.sourceRunNumber.Some? && r.sourceRunNumber.value % LIMIT == p.sourceRunNumber.value
  }

  /** The number after that of row `p`: the same for a source number that repeats, else one more. */
  predicate Follows(p: LicenceRow, r: LicenceRow) {
    if SameSourceNumber(p, r) then r.hmrcRunNumber == p.hmrcRunNumber
    else if r.sourceRunNumber.Some? && p.hmrcRunNumber == LAST_NUMBER then r.hmrcRunNumber == 0
    else r.hmrcRunNumber == p.hmrcRunNumber + 1
  }

  /** Every row follows the row that was last when it was made. */
  predicate Numbered(rows: seq<LicenceRow>) {
    forall i :: 0 < i < |rows| ==> Follows(LastLicence(rows[..i]).value, rows[i])
  }

  lemma NumberedPush(rows: seq<LicenceRow>, r: LicenceRow)
    requires Numbered(rows)
    requires rows != [] ==> Follows(LastLicence(rows).value, r)
    ensures Numbered(rows + [r])
  {
    hide Follows, LastLicence;
    var all := rows + [r];
    forall i | 0 < i < |all|
      ensures Follows(LastLicence(all[..i]).value, all[i])
    {
      assert all[..i] == rows[..i];
      if i == |rows| { assert rows[..i] == rows; }
    }
  }

  lemma GivenNumberFollows(rows: seq<LicenceRow>, given: nat, source: Source, mail: nat)
    requires Numbered(rows)
    ensures Numbered(rows + [LicenceRow(NewHmrcRunNumber(rows, given), Some(given), source, mail, {})])
  {
    NumberedPush(rows, LicenceRow(NewHmrcRunNumber(rows, given), Some(given), source, mail, {}));
  }

  lemma SerializedKeepsNumbered(t: Tables, email: Incoming)
    requires Numbered(t.licences)
    ensures Numbered(Serialized(t, email).tables.licences)
  {
    hide Numbered, NewHmrcRunNumber, NewSpireRunNumber;
    match email
    case LicenceDataEmail(raw, source, given, acceptable) =>
      GivenNumberFollows(t.licences, given, source, |t.mails|);
      var duplicates := Positions(t.mails, Same(LicenceDataType, Email(raw)));
      if duplicates != [] { GivenNumberFollows(t.licences, given, source, duplicates[0]); }
    case _ =>
  }

  lemma {:induction false} SerializedAllKeepsNumbered(t: Tables, emails: seq<Incoming>)
    requires Numbered(t.licences)
    ensures Numbered(SerializedAll(t, emails).tables.licences)
    decreases |emails|
  {
    hide Numbered, Serialized;
    if emails != [] {
      SerializedKeepsNumbered(t, emails[0]);
      if Serialized(t, emails[0]).Done? {
        SerializedAllKeepsNumbered(Serialized(t, emails[0]).tables, emails[1..]);
      }
    }
  }

  lemma NextKeepsNumbered(t: Tables, e: Event)
    requires Numbered(t.licences) && Enabled(t, e)
    ensures Numbered(Next(t, e).licences)
  {
    hide Numbered, Follows, Selected, PendingMessage, MessageFor, SerializedAll, Serialized;
    match e
    case Poll(emails, files) => SerializedAllKeepsNumbered(t, emails);
    case SendLite(valid) => LiteNumberFollows(t.licences, LicenceRow(NextLiteNumber(t.licences), None, Lite, |t.mails|, t.waiting));
    case _ =>
  }

  lemma LiteNumberFollows(rows: seq<LicenceRow>, r: LicenceRow)
    requires Numbered(rows) && r.hmrcRunNumber == NextLiteNumber(rows) && r.sourceRunNumber.None?
    ensures Numbered(rows + [r])
  {
    NumberedPush(rows, r);
  }

  lemma {:induction false} RunKeepsNumbered(t: Tables, events: seq<Event>)
    requires Numbered(t.licences) && Possible(t, events)
    ensures Numbered(Run(t, events).licences)
    decreases |events|
  {
    hide Numbered, Next, Enabled;
    if events != [] {
      NextKeepsNumbered(t, events[0]);
      RunKeepsNumbered(Next(t, events[0]), events[1..]);
    }
  }

  /**
   In every run, guarded or not, each LicenceData row follows the one that was last when it was
   made; and that is the row just before it as long as no email came twice.
   */
  lemma RunNumbersFollow(events: seq<Event>, i: nat)
    requires Possible(NO_TABLES, events)
    requires 0 < i < |Run(NO_TABLES, events).licences|
    ensures var rows := Run(NO_TABLES, events).licences;
            && Follows(LastLicence(rows[..i]).value, rows[i])
            && (Increasing(rows[..i]) ==> Follows(rows[i - 1], rows[i]))
  {
    hide *;
    RunIsNumbered(events);
    FollowsIn(Run(NO_TABLES, events).licences, i);
  }

  /** Each row is for a later mail than the rows before it. */
  predicate Increasing(rows: seq<LicenceRow>) {
    forall j, k :: 0 <= j < k < |rows| ==> rows[j].mail < rows[k].mail
  }

  lemma RunIsNumbered(events: seq<Event>)
    requires Possible(NO_TABLES, events)
    ensures Numbered(Run(NO_TABLES, events).licences)
  {
    hide Follows, LastLicence, Next, Enabled, Possible, Run;
    RunKeepsNumbered(NO_TABLES, events);
  }

  lemma FollowsIn(rows: seq<LicenceRow>, i: nat)
    requires Numbered(rows) && 0 < i < |rows|
    ensures Follows(LastLicence(rows[..i]).value, rows[i])
    ensures Increasing(rows[..i]) ==> Follows(rows[i - 1], rows[i])
  {
    assert Follows(LastLicence(rows[..i]).value, rows[i]);
    hide Follows, LastLicence, Numbered, Increasing;
    if Increasing(rows[..i]) {
      LastOfIncreasing(rows[..i]);
      assert rows[..i][i - 1] == rows[i - 1];
    }
  }

  lemma LastOfIncreasing(rows: seq<LicenceRow>)
    requires rows != [] && Increasing(rows)
    ensures LastLicence(rows) == Some(rows[|rows| - 1])
  {
    assert LastLicence(rows).value in rows;
  }

  lemma LastOfPrefix(rows: seq<LicenceRow>, j: nat)
    requires 1 < j <= |rows|
    ensures LastLicence(rows[..j]) in {Some(rows[j - 1]), LastLicence(rows[..j - 1])}
  {
    assert rows[..j][..j - 1] == rows[..j - 1];
  }

  lemma FollowsPastTheLimit(p: LicenceRow, r: LicenceRow)
    requires Follows(p, r) && p.hmrcRunNumber >= LIMIT
    ensures r.hmrcRunNumber >= LIMIT
  {
  }

  lemma {:induction false} PastTheLimitStays(rows: seq<LicenceRow>, k: nat, j: nat)
    requires Numbered(rows) && 0 < k <= j < |rows|
    requires LastLicence(rows[..k]).value.hmrcRunNumber >= LIMIT
    ensures rows[j].hmrcRunNumber >= LIMIT && LastLicence(rows[..j]).value.hmrcRunNumber >= LIMIT
  {
    hide LastLicence, Follows;
    if k < j {
      PastTheLimitStays(rows, k, j - 1);
      LastOfPrefix(rows, j);
    }
    FollowsPastTheLimit(LastLicence(rows[..j]).value, rows[j]);
  }

  /**
   LITE's own files do not wrap at 99999, and once a number of 100000 or more is the last one, no
   later row of the run has a number below that.
   */
  lemma NumbersPastTheLimitNeverComeBack(events: seq<Event>, k: nat, j: nat)
    requires Possible(NO_TABLES, events)
    requires 0 < k <= j < |Run(NO_TABLES, events).licences|
    requires LastLicence(Run(NO_TABLES, events).licences[..k]).value.hmrcRunNumber >= LIMIT
    ensures Run(NO_TABLES, events).licences[j].hmrcRunNumber >= LIMIT
  {
    hide Follows, LastLicence, Next, Enabled;
    RunKeepsNumbered(NO_TABLES, events);
    PastTheLimitStays(Run(NO_TABLES, events).licences, k, j);
  }

  // ---------------------------------------------------------------- the rows of emails

  /** No mail of the type has the email's text. */
  predicate IsNew(mails: seq<Mail>, extractType: ExtractType, raw: string) {
    forall m :: 0 <= m < |mails| ==> mails[m].extractType != extractType || mails[m].content != Email(raw)
  }

  /** The number after that of usage row `p`, for a file that HMRC numbered `given`. */
  predicate UsageFollows(p: UsageRow, r: UsageRow) {
    if r.hmrcRunNumber % LIMIT == p.hmrcRunNumber then r.spireRunNumber == p.spireRunNumber
    else if p.spireRunNumber == LAST_NUMBER then r.spireRunNumber == 0
    else r.spireRunNumber == p.spireRunNumber + 1
  }

  /**
   A new usage email is stored as a pending mail and one row: HMRC's number is the email's, SPIRE's
   follows the last row's, and LITE has not been sent anything. A known one changes nothing.
   */
  lemma UsageEmailIsStored(t: Tables, raw: string, given: nat, lite: Option<bool>, spire: Option<bool>)
    ensures var email := UsageDataEmail(raw, given, lite, spire, true);
            IsNew(t.mails, UsageDataType, raw) ==>
              var u := Serialized(t, email).tables;
              && Serialized(t, email).Done? && u.mails == t.mails + [Mail(UsageDataType, Pending, Email(raw), None, false, false)]
              && u.licences == t.licences && |u.usages| == |t.usages| + 1 && u.usages[..|t.usages|] == t.usages
              && var r := u.usages[|t.usages|];
                 && r.hmrcRunNumber == given && r.mail == |t.mails| && r.hasLiteData == lite && r.hasSpireData == spire && !r.liteSent
                 && (t.usages == [] ==> r.spireRunNumber == given)
                 && (t.usages != [] ==> UsageFollows(LastUsage(t.usages).value, r))
    ensures !IsNew(t.mails, UsageDataType, raw) && Serialized(t, UsageDataEmail(raw, given, lite, spire, true)).Done? ==>
              Serialized(t, UsageDataEmail(raw, given, lite, spire, true)).tables == t
  {
    hide LastUsage;
    var same := Same(UsageDataType, Email(raw));
    if IsNew(t.mails, UsageDataType, raw) {
      PositionsNone(t.mails, same);
    } else {
      var m :| 0 <= m < |t.mails| && t.mails[m].extractType == UsageDataType && t.mails[m].content == Email(raw);
      assert same(t.mails[m]);
      assert m in Positions(t.mails, same);
    }
  }

  /** The same of a licence email: the source and its number are the email's. */
  lemma LicenceEmailIsStored(t: Tables, raw: string, source: Source, given: nat)
    requires IsNew(t.mails, LicenceDataType, raw)
    requires forall k :: 0 <= k < |t.licences| ==> t.licences[k].mail < |t.mails|
    ensures var r := Serialized(t, LicenceDataEmail(raw, source, given, true));
            var u := r.tables;
            && r.Done? && u.mails == t.mails + [Mail(LicenceDataType, Pending, Email(raw), None, false, false)]
            && u.usages == t.usages && |u.licences| == |t.licences| + 1 && u.licences[..|t.licences|] == t.licences
            && var row := u.licences[|t.licences|];
               && row.sourceRunNumber == Some(given) && row.source == source && row.mail == |t.mails| && row.payloads == {}
               && (t.licences == [] ==> row.hmrcRunNumber == given)
               && (t.licences != [] ==> Follows(LastLicence(t.licences).value, row))
  {
    hide LastLicence;
    PositionsNone(t.mails, Same(LicenceDataType, Email(raw)));
    var row := LicenceRow(NewHmrcRunNumber(t.licences, given), Some(given), source, |t.mails|, {});
    assert row !in t.licences;
  }

  /** The first licence mail that has the email's text and no reply's type. */
  predicate FirstKnown(mails: seq<Mail>, raw: string, m: nat) {
    m < |mails| && mails[m].extractType == LicenceDataType && mails[m].content == Email(raw) && IsNew(mails[..m], LicenceDataType, raw)
  }

  predicate SaysRejected(m: Mail) {
    m.response.Some? && Contains(m.response.value, "rejected")
  }

  /**
   A licence email whose text is known, for all tables: after a reply that says "rejected" a new mail
   is stored, as for a new text; else no mail is, the row is added to the known one unless it is there,
   and only a second mail with the text makes it raise.
   */
  lemma KnownLicenceEmail(t: Tables, raw: string, source: Source, given: nat, m: nat)
    requires FirstKnown(t.mails, raw, m)
    ensures var r := Serialized(t, LicenceDataEmail(raw, source, given, true));
            if SaysRejected(t.mails[m]) then
              r.Done? && r.tables.mails == t.mails + [Mail(LicenceDataType, Pending, Email(raw), None, false, false)]
            else if IsNew(t.mails[m + 1..], LicenceDataType, raw) then
              r.Done? && r.tables.mails == t.mails && |r.tables.licences| <= |t.licences| + 1
              && r.tables.licences[..|t.licences|] == t.licences
              && exists k :: 0 <= k < |r.tables.licences| && r.tables.licences[k].mail == m
                             && r.tables.licences[k].sourceRunNumber == Some(given) && r.tables.licences[k].source == source
            else r == Raised(t)
  {
    KnownPositions(t.mails, raw, m);
    RejectedIs(t.mails[m]);
    hide Positions, SaysRejected, WasRejected, NewHmrcRunNumber, FirstKnown, IsNew;
    var row := LicenceRow(NewHmrcRunNumber(t.licences, given), Some(given), source, m, {});
    assert row in AddLicenceRow(t, row).licences;
  }

  lemma RejectedIs(m: Mail)
    ensures WasRejected(m) <==> SaysRejected(m)
  {
    hide Contains;
  }

  lemma KnownPositions(mails: seq<Mail>, raw: string, m: nat)
    requires FirstKnown(mails, raw, m)
    ensures var found := Positions(mails, Same(LicenceDataType, Email(raw)));
            && found != [] && found[0] == m
            && (|found| > 1 <==> !IsNew(mails[m + 1..], LicenceDataType, raw))
  {
    var same := Same(LicenceDataType, Email(raw));
    var found := Positions(mails, same);
    assert same(mails[m]) && m in found;
    assert same(mails[found[0]]);
    if |found| > 1 {
      assert same(mails[found[1]]);
      assert mails[m + 1..][found[1] - m - 1] == mails[found[1]];
    } else {
      var later := mails[m + 1..];
      forall i | 0 <= i < |later|
        ensures !same(later[i])
      {
        assert later[i] == mails[m + 1 + i];
        assert same(mails[m + 1 + i]) ==> m + 1 + i in found;
      }
    }
  }

  /** Every row follows the row that was last when it was made. */
  predicate UsageNumbered(rows: seq<UsageRow>) {
    forall i :: 0 < i < |rows| ==> UsageFollows(LastUsage(rows[..i]).value, rows[i])
  }

  lemma UsageNumberedPush(rows: seq<UsageRow>, r: UsageRow)
    requires UsageNumbered(rows)
    requires rows != [] ==> UsageFollows(LastUsage(rows).value, r)
    ensures UsageNumbered(rows + [r])
  {
    hide UsageFollows, LastUsage;
    var all := rows + [r];
    forall i | 0 < i < |all|
      ensures UsageFollows(LastUsage(all[..i]).value, all[i])
    {
      assert all[..i] == rows[..i];
      if i == |rows| { assert rows[..i] == rows; }
    }
  }

  /** LITE's answer changes no number and no mail of a row. */
  predicate SameNumbers(a: seq<UsageRow>, b: seq<UsageRow>) {
    |a| == |b| && forall k :: 0 <= k < |a| ==>
      a[k].mail == b[k].mail && a[k].spireRunNumber == b[k].spireRunNumber && a[k].hmrcRunNumber == b[k].hmrcRunNumber
  }

  lemma {:induction false} SameLast(a: seq<UsageRow>, b: seq<UsageRow>)
    requires SameNumbers(a, b) && a != []
    ensures SameNumbers([LastUsage(a).value], [LastUsage(b).value])
  {
    var n := |a| - 1;
    if n > 0 {
      SameLast(a[..n], b[..n]);
    }
  }

  lemma SameNumbersNumbered(a: seq<UsageRow>, b: seq<UsageRow>)
    requires SameNumbers(a, b) && UsageNumbered(a)
    ensures UsageNumbered(b)
  {
    hide LastUsage;
    forall i | 0 < i < |b|
      ensures UsageFollows(LastUsage(b[..i]).value, b[i])
    {
      SameLast(a[..i], b[..i]);
      assert [LastUsage(a[..i]).value][0] == LastUsage(a[..i]).value && [LastUsage(b[..i]).value][0] == LastUsage(b[..i]).value;
      assert UsageFollows(LastUsage(a[..i]).value, a[i]);
    }
  }

  lemma SerializedKeepsUsageNumbered(t: Tables, email: Incoming)
    requires UsageNumbered(t.usages)
    ensures UsageNumbered(Serialized(t, email).tables.usages)
  {
    hide UsageNumbered, NewHmrcRunNumber, NewSpireRunNumber;
    match email
    case UsageDataEmail(raw, given, lite, spire, acceptable) =>
      var row := UsageRow(NewSpireRunNumber(t.usages, given), given, |t.mails|, lite, spire, false);
      SpireNumberFollows(t.usages, row);
      UsageNumberedPush(t.usages, row);
    case _ =>
  }

  lemma SpireNumberFollows(rows: seq<UsageRow>, r: UsageRow)
    requires r.spireRunNumber == NewSpireRunNumber(rows, r.hmrcRunNumber)
    ensures rows != [] ==> UsageFollows(LastUsage(rows).value, r)
  {
    hide LastUsage;
  }

  lemma {:induction false} SerializedAllKeepsUsageNumbered(t: Tables, emails: seq<Incoming>)
    requires UsageNumbered(t.usages)
    ensures UsageNumbered(SerializedAll(t, emails).tables.usages)
    decreases |emails|
  {
    hide UsageNumbered, Serialized;
    if emails != [] {
      SerializedKeepsUsageNumbered(t, emails[0]);
      if Serialized(t, emails[0]).Done? {
        SerializedAllKeepsUsageNumbered(Serialized(t, emails[0]).tables, emails[1..]);
      }
    }
  }

  lemma NextKeepsUsageNumbered(t: Tables, e: Event)
    requires UsageNumbered(t.usages) && Enabled(t, e)
    ensures UsageNumbered(Next(t, e).usages)
  {
    hide UsageNumbered, Selected, PendingMessage, MessageFor, SerializedAll, Serialized;
    match e
    case Poll(emails, files) => SerializedAllKeepsUsageNumbered(t, emails);
    case LiteAnswers(k) => SameNumbersNumbered(t.usages, Next(t, e).usages);
    case _ =>
  }

  /**
   In every run, guarded or not, the number SPIRE is given with a usage file follows that of the row
   that was last when it came: the same if HMRC's number repeats, else one more, with 0 after 99999.
   */
  lemma {:induction false} UsageNumbersFollow(t: Tables, events: seq<Event>)
    requires UsageNumbered(t.usages) && Possible(t, events)
    ensures UsageNumbered(Run(t, events).usages)
    decreases |events|
  {
    hide UsageNumbered, Next, Enabled;
    if events != [] {
      NextKeepsUsageNumbered(t, events[0]);
      UsageNumbersFollow(Next(t, events[0]), events[1..]);
    }
  }

  // ---------------------------------------------------------------- whose files the rows are

  /** The row of a file built from payloads is LITE's and has no source number; an email's has its number and no payloads. */
  predicate RowsAreTheirMails(t: Tables) {
    forall k :: 0 <= k < |t.licences| ==>
      var row := t.licences[k];
      && row.mail < |t.mails|
      && (t.mails[row.mail].content.Built? ==>
            row.source == Lite && row.sourceRunNumber == None && row.payloads != {}
            && row.hmrcRunNumber == t.mails[row.mail].content.runNumber)
      && (t.mails[row.mail].content.Email? ==> row.sourceRunNumber.Some? && row.payloads == {})
  }

  lemma AddedRowIsItsMails(t: Tables, row: LicenceRow)
    requires RowsAreTheirMails(t) && row.mail < |t.mails| && t.mails[row.mail].content.Email?
    requires row.sourceRunNumber.Some? && row.payloads == {}
    ensures RowsAreTheirMails(AddLicenceRow(t, row))
  {
  }

  lemma LicenceEmailKeepsRows(t: Tables, raw: string, source: Source, given: nat)
    requires RowsAreTheirMails(t)
    ensures RowsAreTheirMails(SaveLicenceData(t, raw, source, given).tables)
  {
    hide AddLicenceRow, NewHmrcRunNumber, WasRejected;
    var duplicates := Positions(t.mails, Same(LicenceDataType, Email(raw)));
    var number := NewHmrcRunNumber(t.licences, given);
    if duplicates != [] {
      AddedRowIsItsMails(t, LicenceRow(number, Some(given), source, duplicates[0], {}));
    }
    var u := t.(mails := t.mails + [NewMail(LicenceDataType, Email(raw))]);
    assert RowsAreTheirMails(u);
    AddedRowIsItsMails(u, LicenceRow(number, Some(given), source, |t.mails|, {}));
  }

  lemma SerializedKeepsRows(t: Tables, email: Incoming)
    requires RowsAreTheirMails(t)
    ensures RowsAreTheirMails(Serialized(t, email).tables)
  {
    hide Positions, NewHmrcRunNumber, NewSpireRunNumber, SaveLicenceData, FindMailOf, LastLicence, LastUsage;
    match email
    case LicenceDataEmail(raw, source, given, acceptable) => LicenceEmailKeepsRows(t, raw, source, given);
    case _ =>
  }

  lemma {:induction false} SerializedAllKeepsRows(t: Tables, emails: seq<Incoming>)
    requires RowsAreTheirMails(t)
    ensures RowsAreTheirMails(SerializedAll(t, emails).tables)
    decreases |emails|
  {
    hide RowsAreTheirMails, Serialized;
    if emails != [] {
      SerializedKeepsRows(t, emails[0]);
      if Serialized(t, emails[0]).Done? {
        SerializedAllKeepsRows(Serialized(t, emails[0]).tables, emails[1..]);
      }
    }
  }

  /** A mail's progress keeps its text. */
  lemma ProgressKeepsRows(t: Tables, u: Tables)
    requires RowsAreTheirMails(t) && u.licences == t.licences && |u.mails| == |t.mails|
    requires forall m :: 0 <= m < |t.mails| ==> u.mails[m].content == t.mails[m].content
    ensures RowsAreTheirMails(u)
  {
  }

  lemma RoutedKeepsRows(t: Tables, choice: Choice, files: Files)
    requires RowsAreTheirMails(t) && (choice.Chosen? ==> choice.mail < |t.mails|)
    ensures RowsAreTheirMails(Routed(t, choice, files).tables)
  {
    hide RowsAreTheirMails, MessageFor;
    ProgressKeepsRows(t, Routed(t, choice, files).tables);
  }

  lemma PolledKeepsRows(t: Tables, emails: seq<Incoming>, files: Files)
    requires RowsAreTheirMails(t)
    ensures RowsAreTheirMails(Polled(t, emails, files).tables)
  {
    hide RowsAreTheirMails, SerializedAll, Selected, PendingMessage, Routed;
    if emails == [] {
      RoutedKeepsRows(t, PendingMessage(t), files);
    } else {
      SerializedAllKeepsRows(t, emails);
      var u := SerializedAll(t, emails).tables;
      RoutedKeepsRows(u, Selected(u), files);
    }
  }

  lemma SentKeepsRows(t: Tables, valid: bool)
    requires RowsAreTheirMails(t)
    ensures RowsAreTheirMails(LiteSent(t, valid))
  {
    hide NextLiteNumber;
  }

  lemma NextKeepsRows(t: Tables, e: Event)
    requires RowsAreTheirMails(t) && Enabled(t, e)
    ensures RowsAreTheirMails(Next(t, e))
  {
    hide RowsAreTheirMails, Polled, LiteSent;
    match e
    case Poll(emails, files) => PolledKeepsRows(t, emails, files);
    case SendLite(valid) => SentKeepsRows(t, valid);
    case _ => ProgressKeepsRows(t, Next(t, e));
  }

  /** In every run each LicenceData row says whose file its mail holds. */
  lemma {:induction false} RowsSayWhoseFileItIs(t: Tables, events: seq<Event>)
    requires RowsAreTheirMails(t) && Possible(t, events)
    ensures RowsAreTheirMails(Run(t, events))
    decreases |events|
  {
    hide RowsAreTheirMails, Next, Enabled;
    if events != [] {
      NextKeepsRows(t, events[0]);
      RowsSayWhoseFileItIs(Next(t, events[0]), events[1..]);
    }
  }
}
