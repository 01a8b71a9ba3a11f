/**
 What a poll does with the mails it finds: which one it sends on, when it sends none, and that a
 reply reaches the sender of its file.
 */
module PollOutcome {
  import opened Text
  import opened MailTables
  import opened RunNumbers
  import opened MailWorkflow
  import opened WorkflowRuns
  import opened QueueDrain

  // ---------------------------------------------------------------- mails and their rows

  /** The first mail in a status, in order of creation. */
  predicate Oldest(mails: seq<Mail>, status: Status, m: nat) {
    m < |mails| && mails[m].status == status && forall i :: 0 <= i < m ==> mails[i].status != status
  }

  predicate NoneIn(mails: seq<Mail>, status: Status) {
    forall i :: 0 <= i < |mails| ==> mails[i].status != status
  }

  /** The `k`-th row is the only one of its mail. */
  predicate OnlyLicence(rows: seq<LicenceRow>, m: nat, k: nat) {
    k < |rows| && rows[k].mail == m && forall j :: 0 <= j < |rows| && rows[j].mail == m ==> j == k
  }

  predicate OnlyUsage(rows: seq<UsageRow>, m: nat, k: nat) {
    k < |rows| && rows[k].mail == m && forall j :: 0 <= j < |rows| && rows[j].mail == m ==> j == k
  }

  predicate HasOneLicence(rows: seq<LicenceRow>, m: nat) {
    exists k :: 0 <= k < |rows| && OnlyLicence(rows, m, k)
  }

  predicate HasOneUsage(rows: seq<UsageRow>, m: nat) {
    exists k :: 0 <= k < |rows| && OnlyUsage(rows, m, k)
  }

  lemma {:induction false} NoLicenceOf(rows: seq<LicenceRow>, m: nat)
    ensures LicencesOf(rows, m) == [] <==> forall j :: 0 <= j < |rows| ==> rows[j].mail != m
  {
    if rows != [] {
      NoLicenceOf(rows[..|rows| - 1], m);
    }
  }

  lemma {:induction false} LicencesOfOne(rows: seq<LicenceRow>, m: nat, k: nat)
    requires OnlyLicence(rows, m, k)
    ensures LicencesOf(rows, m) == [rows[k]]
  {
    var n := |rows| - 1;
    if k == n {
      NoLicenceOf(rows[..n], m);
    } else {
      LicencesOfOne(rows[..n], m, k);
    }
  }

  lemma {:induction false} OneLicenceOf(rows: seq<LicenceRow>, m: nat)
    ensures |LicencesOf(rows, m)| == 1 ==> HasOneLicence(rows, m)
  {
    if |LicencesOf(rows, m)| == 1 {
      var n := |rows| - 1;
      NoLicenceOf(rows[..n], m);
      if rows[n].mail == m {
        assert OnlyLicence(rows, m, n);
      } else {
        OneLicenceOf(rows[..n], m);
        var k :| 0 <= k < n && OnlyLicence(rows[..n], m, k);
        assert OnlyLicence(rows, m, k);
      }
    }
  }

  lemma LicencesOfExactly(rows: seq<LicenceRow>, m: nat)
    ensures |LicencesOf(rows, m)| == 1 <==> HasOneLicence(rows, m)
    ensures forall k :: 0 <= k < |rows| && OnlyLicence(rows, m, k) ==> LicencesOf(rows, m) == [rows[k]]
  {
    OneLicenceOf(rows, m);
    forall k | 0 <= k < |rows| && OnlyLicence(rows, m, k)
      ensures LicencesOf(rows, m) == [rows[k]]
    {
      LicencesOfOne(rows, m, k);
    }
  }

  lemma {:induction false} NoUsageOf(rows: seq<UsageRow>, m: nat)
    ensures UsagesOf(rows, m) == [] <==> forall j :: 0 <= j < |rows| ==> rows[j].mail != m
  {
    if rows != [] {
      NoUsageOf(rows[..|rows| - 1], m);
    }
  }

  lemma {:induction false} UsagesOfOne(rows: seq<UsageRow>, m: nat, k: nat)
    requires OnlyUsage(rows, m, k)
    ensures UsagesOf(rows, m) == [rows[k]]
  {
    var n := |rows| - 1;
    if k == n {
      NoUsageOf(rows[..n], m);
    } else {
      UsagesOfOne(rows[..n], m, k);
    }
  }

  lemma {:induction false} OneUsageOf(rows: seq<UsageRow>, m: nat)
    ensures |UsagesOf(rows, m)| == 1 ==> HasOneUsage(rows, m)
  {
    if |UsagesOf(rows, m)| == 1 {
      var n := |rows| - 1;
      NoUsageOf(rows[..n], m);
      if rows[n].mail == m {
        assert OnlyUsage(rows, m, n);
      } else {
        OneUsageOf(rows[..n], m);
        var k :| 0 <= k < n && OnlyUsage(rows[..n], m, k);
        assert OnlyUsage(rows, m, k);
      }
    }
  }

  lemma UsagesOfExactly(rows: seq<UsageRow>, m: nat)
    ensures |UsagesOf(rows, m)| == 1 <==> HasOneUsage(rows, m)
    ensures forall k :: 0 <= k < |rows| && OnlyUsage(rows, m, k) ==> UsagesOf(rows, m) == [rows[k]]
  {
    OneUsageOf(rows, m);
    forall k | 0 <= k < |rows| && OnlyUsage(rows, m, k)
      ensures UsagesOf(rows, m) == [rows[k]]
    {
      UsagesOfOne(rows, m, k);
    }
  }

  lemma OldestIsFirst(mails: seq<Mail>, status: Status, m: nat)
    requires Oldest(mails, status, m)
    ensures var found := Positions(mails, WithStatus(status)); found != [] && found[0] == m
  {
    var found := Positions(mails, WithStatus(status));
    assert WithStatus(status)(mails[m]);
    assert m in found;
    assert WithStatus(status)(mails[found[0]]);
  }

  lemma NoneFound(mails: seq<Mail>, status: Status)
    requires NoneIn(mails, status)
    ensures Positions(mails, WithStatus(status)) == []
  {
    PositionsNone(mails, WithStatus(status));
  }

  // ---------------------------------------------------------------- polls that take emails in

  /** A usage file that LITE has not answered for yet. */
  predicate WaitsForLite(t: Tables, m: nat)
    requires m < |t.mails|
  {
    t.mails[m].extractType == UsageDataType
    && exists k :: 0 <= k < |t.usages| && OnlyUsage(t.usages, m, k) && t.usages[k].hasLiteData == Some(true) && !t.usages[k].liteSent
  }

  /** There is an answer to pass on: a merged usage reply, or a stored reply and the file it answers. */
  predicate CanAnswer(t: Tables, m: nat, files: Files)
    requires m < |t.mails|
  {
    match t.mails[m].extractType
    case UsageDataType => HasOneUsage(t.usages, m) && files.mergeable
    case UsageReplyType => t.mails[m].response.Some?
    case _ => HasOneLicence(t.licences, m) && t.mails[m].response.Some?
  }

  /** An answer to one of LITE's own files is not posted. */
  predicate AnswersLite(t: Tables, m: nat)
    requires m < |t.mails|
  {
    t.mails[m].extractType in LICENCE_TYPES
    && exists k :: 0 <= k < |t.licences| && OnlyLicence(t.licences, m, k) && t.licences[k].source == Lite
  }

  function Queued(t: Tables, m: nat): Tables {
    t.(sendings := t.sendings + [SpireSending(m)])
  }

  /** The poll's emails are taken in and leave the tables `u`. */
  predicate TakenIn(t: Tables, emails: seq<Incoming>, u: Tables) {
    emails != [] && SerializedAll(t, emails) == Done(u)
  }

  /**
   For all tables: a poll that takes emails in passes on the oldest reply received. It is recorded
   at once if it answers LITE and else queued; nothing happens exactly while it waits for LITE; and
   the poll raises exactly when there is no answer to build.
   */
  lemma PollPassesOnTheOldestReply(t: Tables, emails: seq<Incoming>, files: Files, u: Tables, m: nat)
    requires TakenIn(t, emails, u) && Oldest(u.mails, ReplyReceived, m)
    ensures Polled(t, emails, files) ==
            if WaitsForLite(u, m) then Done(u)
            else if !CanAnswer(u, m, files) then Raised(u)
            else if AnswersLite(u, m) then
              Done(u.(mails := u.mails[m := u.mails[m].(status := ReplySent, responseSent := true)]))
            else Done(Queued(u, m))
  {
    hide Positions, LicencesOf, UsagesOf, SerializedAll, Oldest, HasOneLicence, HasOneUsage;
    OldestIsFirst(u.mails, ReplyReceived, m);
    assert u.mails[m].status == ReplyReceived by { OldestStatus(u.mails, ReplyReceived, m); }
    RowFacts(u, m);
    hide OnlyLicence, OnlyUsage;
  }

  lemma OldestStatus(mails: seq<Mail>, status: Status, m: nat)
    requires Oldest(mails, status, m)
    ensures m < |mails| && mails[m].status == status
  {
  }

  /** What the row queries answer, in terms of single rows. */
  lemma RowFacts(t: Tables, m: nat)
    requires m < |t.mails|
    ensures |LicencesOf(t.licences, m)| == 1 <==> HasOneLicence(t.licences, m)
    ensures |UsagesOf(t.usages, m)| == 1 <==> HasOneUsage(t.usages, m)
    ensures |LicencesOf(t.licences, m)| == 1 ==>
              (LicencesOf(t.licences, m)[0].source == Lite <==>
               exists k :: 0 <= k < |t.licences| && OnlyLicence(t.licences, m, k) && t.licences[k].source == Lite)
    ensures |UsagesOf(t.usages, m)| == 1 ==>
              (UsagesOf(t.usages, m)[0].hasLiteData == Some(true) && !UsagesOf(t.usages, m)[0].liteSent <==>
               exists k :: 0 <= k < |t.usages| && OnlyUsage(t.usages, m, k) && t.usages[k].hasLiteData == Some(true) && !t.usages[k].liteSent)
    ensures !HasOneLicence(t.licences, m) ==> forall k :: 0 <= k < |t.licences| ==> !OnlyLicence(t.licences, m, k)
    ensures !HasOneUsage(t.usages, m) ==> forall k :: 0 <= k < |t.usages| ==> !OnlyUsage(t.usages, m, k)
  {
    hide LicencesOf, UsagesOf, OnlyLicence, OnlyUsage;
    LicencesOfExactly(t.licences, m);
    UsagesOfExactly(t.usages, m);
  }

  /** While a mail is in flight and no reply has been received, nothing is sent. */
  lemma PollWaitsWhileInFlight(t: Tables, emails: seq<Incoming>, files: Files, u: Tables, m: nat)
    requires TakenIn(t, emails, u) && NoneIn(u.mails, ReplyReceived) && Oldest(u.mails, ReplyPending, m)
    ensures Polled(t, emails, files) ==
            if u.mails[m].extractType == UsageDataType && !HasOneUsage(u.usages, m) then Raised(u) else Done(u)
  {
    hide Positions, LicencesOf, UsagesOf, SerializedAll, Oldest, NoneIn, HasOneLicence, HasOneUsage;
    NoneFound(u.mails, ReplyReceived);
    OldestIsFirst(u.mails, ReplyPending, m);
    OldestStatus(u.mails, ReplyPending, m);
    RowFacts(u, m);
    hide OnlyLicence, OnlyUsage;
  }

  /** A pending mail has the one row its message is built from; other types need none. */
  predicate CanBeSent(t: Tables, m: nat)
    requires m < |t.mails|
  {
    match t.mails[m].extractType
    case LicenceDataType => HasOneLicence(t.licences, m)
    case UsageDataType => HasOneUsage(t.usages, m)
    case _ => true
  }

  /** A file is posted, except a usage file in which SPIRE owns no block; that one is only recorded. */
  predicate IsPosted(m: Mail, files: Files) {
    m.extractType == LicenceDataType || (m.extractType == UsageDataType && files.ownsSpireBlock)
  }

  /** What sending a pending mail on does. */
  function SentOn(t: Tables, m: nat, files: Files): Result
    requires m < |t.mails|
  {
    var mail := t.mails[m];
    if !CanBeSent(t, m) then Raised(t)
    else if IsPosted(mail, files) then Done(Queued(t, m))
    else
      Done(t.(mails := t.mails[m := mail.(sent := true,
                                          status := if mail.extractType == UsageDataType then ReplySent else ReplyPending)]))
  }

  lemma CollectedPending(t: Tables, m: nat, files: Files)
    requires m < |t.mails| && t.mails[m].status == Pending
    ensures Collected(t, m, files) == SentOn(t, m, files)
  {
    hide LicencesOf, UsagesOf, HasOneLicence, HasOneUsage;
    RowFacts(t, m);
    hide OnlyLicence, OnlyUsage;
  }

  /** With no reply received and nothing in flight, the oldest pending mail is sent, if there is one. */
  lemma PollSendsTheOldestPending(t: Tables, emails: seq<Incoming>, files: Files, u: Tables, m: nat)
    requires TakenIn(t, emails, u) && NoneIn(u.mails, ReplyReceived) && NoneIn(u.mails, ReplyPending)
    ensures Oldest(u.mails, Pending, m) ==> Polled(t, emails, files) == SentOn(u, m, files)
    ensures NoneIn(u.mails, Pending) ==> Polled(t, emails, files) == Done(u)
  {
    hide Positions, SerializedAll, Oldest, NoneIn, SentOn, Collected;
    NoneFound(u.mails, ReplyReceived);
    NoneFound(u.mails, ReplyPending);
    if Oldest(u.mails, Pending, m) {
      OldestIsFirst(u.mails, Pending, m);
      OldestStatus(u.mails, Pending, m);
      CollectedPending(u, m, files);
    }
    if NoneIn(u.mails, Pending) {
      NoneFound(u.mails, Pending);
    }
  }

  // ---------------------------------------------------------------- polls without new emails

  predicate LicencePending(m: Mail) {
    m.extractType == LicenceDataType && m.status == Pending
  }

  predicate TwoPending(mails: seq<Mail>) {
    exists i, j :: 0 <= i < j < |mails| && LicencePending(mails[i]) && LicencePending(mails[j])
  }

  predicate OneFlying(mails: seq<Mail>) {
    exists i :: 0 <= i < |mails| && mails[i].extractType == LicenceDataType && mails[i].status == ReplyPending
  }

  /** Two licence files wait, or the oldest waiting mail is one while another is in flight. */
  predicate Jammed(mails: seq<Mail>, m: nat)
    requires m < |mails|
  {
    TwoPending(mails) || (mails[m].extractType == LicenceDataType && OneFlying(mails))
  }

  lemma TwoPendingFound(mails: seq<Mail>)
    ensures |Positions(mails, LicenceDataWith(Pending))| > 1 <==> TwoPending(mails)
  {
    var admits := LicenceDataWith(Pending);
    var waiting := Positions(mails, admits);
    assert forall m: Mail :: admits(m) <==> LicencePending(m);
    hide LicencePending, LicenceDataWith;
    if |waiting| > 1 {
      assert LicencePending(mails[waiting[0]]) && LicencePending(mails[waiting[1]]);
    } else {
      forall i, j | 0 <= i < j < |mails|
        ensures !(LicencePending(mails[i]) && LicencePending(mails[j]))
      {
        assert admits(mails[i]) ==> i in waiting;
        assert admits(mails[j]) ==> j in waiting;
      }
    }
  }

  lemma OneFlyingFound(mails: seq<Mail>)
    ensures Positions(mails, LicenceDataWith(ReplyPending)) != [] <==> OneFlying(mails)
  {
    var admits := LicenceDataWith(ReplyPending);
    var flying := Positions(mails, admits);
    if flying != [] {
      assert admits(mails[flying[0]]);
    } else {
      forall i | 0 <= i < |mails|
        ensures !(mails[i].extractType == LicenceDataType && mails[i].status == ReplyPending)
      {
        assert admits(mails[i]) ==> i in flying;
      }
    }
  }

  /** A poll that finds no email sends the oldest pending mail, or raises when the licence files are jammed. */
  lemma QuietPollSendsTheOldestPending(t: Tables, files: Files, m: nat)
    ensures Oldest(t.mails, Pending, m) ==>
              Polled(t, [], files) == if Jammed(t.mails, m) then Raised(t) else SentOn(t, m, files)
    ensures NoneIn(t.mails, Pending) ==> Polled(t, [], files) == Done(t)
  {
    TwoPendingFound(t.mails);
    OneFlyingFound(t.mails);
    hide Positions, SentOn, Collected, OneFlying;
    if Oldest(t.mails, Pending, m) {
      OldestIsFirst(t.mails, Pending, m);
      CollectedPending(t, m, files);
    }
    if NoneIn(t.mails, Pending) {
      NoneFound(t.mails, Pending);
    }
  }

  // ---------------------------------------------------------------- replies reach their senders

  /** The delivery of what a poll queued, if it queued anything. */
  function Delivered(t: Tables): Tables {
    if t.sendings != [] && t.sendings[0].mail < |t.mails| then Finalised(t, 0) else t
  }

  /** What is queued for the oldest received reply is delivered as that mail's answer. */
  lemma DeliverQueued(u: Tables, m: nat)
    requires u.sendings == [] && m < |u.mails| && u.mails[m].status == ReplyReceived
    ensures Delivered(Queued(u, m)).mails == u.mails[m := u.mails[m].(status := ReplySent, responseSent := true)]
    ensures Delivered(Queued(u, m)).sendings == []
  {
  }

  /**
   In every guarded run: the poll that stores a reply on a licence mail, followed by the delivery of
   what it queued, leaves that mail `reply_sent` exactly when no older mail still holds a reply that
   was not passed on, and the mail has one LicenceData row.
   */
  lemma ReplyIsPassedOnExactlyWhen(events: seq<Event>, emails: seq<Incoming>, files: Files, m: nat)
    requires Possible(NO_TABLES, events) && Guarded(NO_TABLES, events)
    requires Run(NO_TABLES, events).sendings == [] && emails != []
    requires m < |SerializedAll(Run(NO_TABLES, events), emails).tables.mails|
    requires Licence(SerializedAll(Run(NO_TABLES, events), emails).tables.mails[m])
    requires SerializedAll(Run(NO_TABLES, events), emails).tables.mails[m].status == ReplyReceived
    ensures var t := Run(NO_TABLES, events);
            var u := SerializedAll(t, emails).tables;
            var after := Delivered(Polled(t, emails, files).tables).mails;
            m < |after|
            && (after[m].status == ReplySent <==>
                (forall i :: 0 <= i < m ==> u.mails[i].status != ReplyReceived) && HasOneLicence(u.licences, m))
  {
    hide *;
    var t := Run(NO_TABLES, events);
    EmailsAreTakenIn(events, emails);
    IdleAfter(events, emails);
    var u := SerializedAll(t, emails).tables;
    TakenInIs(t, emails);
    OldestReceived(u.mails, m);
    var first := FirstReceived(u.mails, m);
    PollPassesOnTheOldestReply(t, emails, files, u, first);
    AnswerOutcome(u, first, m, files, Polled(t, emails, files));
  }

  lemma IdleAfter(events: seq<Event>, emails: seq<Incoming>)
    requires Possible(NO_TABLES, events) && Guarded(NO_TABLES, events) && Run(NO_TABLES, events).sendings == []
    ensures var u := SerializedAll(Run(NO_TABLES, events), emails).tables;
            MailsSound(u.mails) && u.sendings == []
  {
    hide Next, Enabled, Serialized, MayStart, MailSound, MayFinalise;
    RunKeepsOrder(NO_TABLES, events);
    SerializedAllKeepsIdle(Run(NO_TABLES, events), emails);
  }

  lemma TakenInIs(t: Tables, emails: seq<Incoming>)
    requires emails != [] && SerializedAll(t, emails).Done?
    ensures TakenIn(t, emails, SerializedAll(t, emails).tables)
  {
  }

  /** The first mail with a received reply, up to a given one. */
  lemma {:induction false} FirstReceived(mails: seq<Mail>, m: nat) returns (first: nat)
    requires m < |mails| && mails[m].status == ReplyReceived
    ensures first <= m && Oldest(mails, ReplyReceived, first)
  {
    if i :| 0 <= i < m && mails[i].status == ReplyReceived {
      first := FirstReceived(mails, i);
    } else {
      first := m;
    }
  }

  lemma OldestReceived(mails: seq<Mail>, m: nat)
    requires m < |mails| && mails[m].status == ReplyReceived
    ensures Oldest(mails, ReplyReceived, m) <==> forall i :: 0 <= i < m ==> mails[i].status != ReplyReceived
  {
  }

  lemma AnswerOutcome(u: Tables, first: nat, m: nat, files: Files, r: Result)
    requires MailsSound(u.mails) && u.sendings == [] && Oldest(u.mails, ReplyReceived, first) && first <= m < |u.mails|
    requires Licence(u.mails[m]) && u.mails[m].status == ReplyReceived
    requires r ==
             if WaitsForLite(u, first) then Done(u)
             else if !CanAnswer(u, first, files) then Raised(u)
             else if AnswersLite(u, first) then
               Done(u.(mails := u.mails[first := u.mails[first].(status := ReplySent, responseSent := true)]))
             else Done(Queued(u, first))
    ensures var after := Delivered(r.tables).mails;
            m < |after| && (after[m].status == ReplySent <==> Oldest(u.mails, ReplyReceived, m) && HasOneLicence(u.licences, m))
  {
    assert MailSound(u.mails[m]) && MailSound(u.mails[first]);
    DeliverQueued(u, first);
    hide HasOneLicence, HasOneUsage, OnlyLicence, OnlyUsage, Finalised;
    assert Oldest(u.mails, ReplyReceived, m) <==> first == m;
  }

  // ---------------------------------------------------------------- failures and deliveries

  lemma {:induction false} SerializedAllAppend(t: Tables, a: seq<Incoming>, b: seq<Incoming>)
    ensures SerializedAll(t, a + b) ==
            match SerializedAll(t, a)
            case Raised(u) => Raised(u)
            case Done(u) => SerializedAll(u, b)
    decreases |a|
  {
    hide Serialized;
    if a == [] {
      assert a + b == b;
    } else {
      assert (a + b)[1..] == a[1..] + b;
      if Serialized(t, a[0]).Done? {
        SerializedAllAppend(Serialized(t, a[0]).tables, a[1..], b);
      }
    }
  }

  /** An email that raises ends the poll; the emails before it stay taken in, and those after it are not. */
  lemma EmailsBeforeAFailureStay(t: Tables, before: seq<Incoming>, email: Incoming, after: seq<Incoming>, files: Files,
                                 u: Tables, v: Tables)
    requires SerializedAll(t, before) == Done(u) && Serialized(u, email) == Raised(v)
    ensures Polled(t, before + ([email] + after), files) == Raised(v)
  {
    hide Serialized, Selected, PendingMessage, Collected;
    SerializedAllAppend(t, before, [email] + after);
    assert ([email] + after)[0] == email;
  }

  /**
   The task after a delivery, for all tables: it leaves the other outstanding tasks in their order and
   the other mails as they are, moves its own mail on by its status alone, and marks processed exactly
   those of a LITE file's payloads that were still unprocessed.
   */
  lemma FinalisingExactly(t: Tables, k: nat)
    requires k < |t.sendings| && t.sendings[k].mail < |t.mails|
    ensures var u := Finalised(t, k);
            var m := t.sendings[k].mail;
            && |u.sendings| == |t.sendings| - 1
            && (forall j :: 0 <= j < |u.sendings| ==> u.sendings[j] == t.sendings[if j < k then j else j + 1])
            && |u.mails| == |t.mails| && (forall i :: 0 <= i < |t.mails| && i != m ==> u.mails[i] == t.mails[i])
            && (t.mails[m].status == Pending ==>
                  u.mails[m] == t.mails[m].(sent := true, status := if t.mails[m].extractType == UsageDataType then ReplySent else ReplyPending))
            && (t.mails[m].status != Pending ==> u.mails[m] == t.mails[m].(status := ReplySent, responseSent := true))
            && (forall id: nat :: id in u.waiting <==> id in t.waiting && !(t.sendings[k].LiteSending? && id in t.sendings[k].payloads))
            && (forall id: nat :: id in u.processed <==>
                  id in t.processed || (id in t.waiting && t.sendings[k].LiteSending? && id in t.sendings[k].payloads))
            && u.licences == t.licences && u.usages == t.usages && u.received == t.received
  {
  }

  // ---------------------------------------------------------------- LITE's answers

  /** A usage email adds rows only for new mails. */
  lemma {:induction false} EmailsKeepUsages(t: Tables, emails: seq<Incoming>)
    ensures var u := SerializedAll(t, emails).tables;
            && |u.mails| >= |t.mails| && |u.usages| >= |t.usages| && u.usages[..|t.usages|] == t.usages
            && u.sendings == t.sendings
            && forall k :: |t.usages| <= k < |u.usages| ==> u.usages[k].mail >= |t.mails|
    decreases |emails|
  {
    hide Serialized;
    if emails != [] {
      EmailKeepsUsages(t, emails[0]);
      if Serialized(t, emails[0]).Done? {
        EmailsKeepUsages(Serialized(t, emails[0]).tables, emails[1..]);
      }
    }
  }

  lemma EmailKeepsUsages(t: Tables, email: Incoming)
    ensures var u := Serialized(t, email).tables;
            && |u.mails| >= |t.mails| && |u.usages| >= |t.usages| && u.usages[..|t.usages|] == t.usages
            && u.sendings == t.sendings
            && forall k :: |t.usages| <= k < |u.usages| ==> u.usages[k].mail >= |t.mails|
  {
    hide Positions, NewHmrcRunNumber, NewSpireRunNumber, MailForLicenceReply, MailForUsageReply;
  }

  lemma StillTheOnlyUsage(t: Tables, u: Tables, m: nat, k: nat)
    requires OnlyUsage(t.usages, m, k) && m < |t.mails|
    requires |u.usages| >= |t.usages| && u.usages[..|t.usages|] == t.usages
    requires forall j :: |t.usages| <= j < |u.usages| ==> u.usages[j].mail >= |t.mails|
    ensures OnlyUsage(u.usages, m, k) && k < |u.usages| && k < |t.usages| && u.usages[k] == t.usages[k]
  {
    forall j | 0 <= j < |u.usages| && u.usages[j].mail == m
      ensures j == k
    {
      assert j < |t.usages| ==> t.usages[j] == u.usages[..|t.usages|][j];
    }
    assert u.usages[..|t.usages|][k] == u.usages[k];
  }

  /** Taking emails in changes no usage mail. */
  lemma {:induction false} EmailsKeepUsageMails(t: Tables, emails: seq<Incoming>, m: nat)
    requires Sound(t) && m < |t.mails| && t.mails[m].extractType == UsageDataType
    ensures var u := SerializedAll(t, emails).tables;
            m < |u.mails| && u.mails[m] == t.mails[m]
    decreases |emails|
  {
    hide Sound, Serialized;
    if emails != [] {
      EmailKeepsUsageMail(t, emails[0], m);
      SerializedKeepsSound(t, emails[0]);
      if Serialized(t, emails[0]).Done? {
        EmailsKeepUsageMails(Serialized(t, emails[0]).tables, emails[1..], m);
      }
    }
  }

  lemma EmailKeepsUsageMail(t: Tables, email: Incoming, m: nat)
    requires Sound(t) && m < |t.mails| && t.mails[m].extractType == UsageDataType
    ensures var u := Serialized(t, email).tables;
            m < |u.mails| && u.mails[m] == t.mails[m]
  {
    hide Sound, Serialized, FindMailOf;
    match email
    case LicenceReplyEmail(number, text) => ReplyKeepsUsageMail(t, number, text, m);
    case UsageReplyEmail(number, text) => OthersChangeNothing(t, email);
    case OtherEmail => OthersChangeNothing(t, email);
    case _ =>
      NewEmailOnlyAddsAMail(t, email);
      var mails := Serialized(t, email).tables.mails;
      if mails != t.mails {
        var mail: Mail :| mail.status == Pending && mails == t.mails + [mail];
      }
  }

  lemma ReplyKeepsUsageMail(t: Tables, number: nat, text: string, m: nat)
    requires Sound(t) && m < |t.mails| && t.mails[m].extractType == UsageDataType
    ensures var u := Serialized(t, LicenceReplyEmail(number, text)).tables;
            m < |u.mails| && u.mails[m] == t.mails[m]
  {
    InFlightIsLicenceData(t);
    hide Sound, FindMailOf, LastLicence, LicencesNumbered;
  }

  /**
   LITE's answer for a usage file: if SPIRE owns a licence in it no mail changes; else the file's mail
   has its reply, and the next poll that takes emails in, if no older reply waits and the replies can
   be merged, passes it on, so that its delivery leaves it `reply_sent`.
   */
  lemma LiteAnswerIsPassedOn(t: Tables, m: nat, k: nat, emails: seq<Incoming>, files: Files, u: Tables)
    requires OnlyUsage(t.usages, m, k) && m < |t.mails| && t.mails[m].extractType == UsageDataType && t.sendings == []
    requires Sound(t) && TakenIn(ResponseSaved(t, k), emails, u) && files.mergeable
    ensures t.usages[k].hasSpireData == Some(true) ==> ResponseSaved(t, k).mails == t.mails
    ensures t.usages[k].hasSpireData != Some(true) ==>
              ResponseSaved(t, k).mails == t.mails[m := t.mails[m].(status := ReplyReceived)]
    ensures t.usages[k].hasSpireData != Some(true) && NoOlderReply(u.mails, m) ==>
              Polled(ResponseSaved(t, k), emails, files) == Done(Queued(u, m)) && IsAnswered(Delivered(Queued(u, m)).mails, m)
  {
    hide *;
    AnswerIsSaved(t, m, k);
    var v := ResponseSaved(t, k);
    ResponseSavedKeepsSound(t, k);
    TakenInMeans(v, emails, u);
    EmailsKeepUsages(v, emails);
    EmailsKeepUsageMails(v, emails, m);
    StillTheOnlyUsage(v, u, m, k);
    if t.usages[k].hasSpireData != Some(true) && NoOlderReply(u.mails, m) {
      PollAfterLite(v, emails, files, u, m, k);
    }
  }

  predicate NoOlderReply(mails: seq<Mail>, m: nat) {
    forall i :: 0 <= i < m && i < |mails| ==> mails[i].status != ReplyReceived
  }

  predicate IsAnswered(mails: seq<Mail>, m: nat) {
    m < |mails| && mails[m].status == ReplySent && mails[m].responseSent
  }

  lemma TakenInMeans(t: Tables, emails: seq<Incoming>, u: Tables)
    requires TakenIn(t, emails, u)
    ensures SerializedAll(t, emails).tables == u
  {
  }

  lemma PollAfterLite(v: Tables, emails: seq<Incoming>, files: Files, u: Tables, m: nat, k: nat)
    requires TakenIn(v, emails, u) && u.sendings == [] && files.mergeable
    requires m < |u.mails| && u.mails[m].extractType == UsageDataType && u.mails[m].status == ReplyReceived
    requires OnlyUsage(u.usages, m, k) && u.usages[k].liteSent && NoOlderReply(u.mails, m)
    ensures Polled(v, emails, files) == Done(Queued(u, m)) && IsAnswered(Delivered(Queued(u, m)).mails, m)
  {
    hide TakenIn, Polled, Delivered, OnlyUsage;
    assert Oldest(u.mails, ReplyReceived, m);
    PollPassesOnTheOldestReply(v, emails, files, u, m);
    NotWaiting(u, m, k);
    DeliverQueued(u, m);
    hide WaitsForLite, HasOneUsage;
  }

  lemma NotWaiting(u: Tables, m: nat, k: nat)
    requires m < |u.mails| && OnlyUsage(u.usages, m, k) && u.usages[k].liteSent
    ensures !WaitsForLite(u, m) && HasOneUsage(u.usages, m)
  {
  }

  lemma AnswerIsSaved(t: Tables, m: nat, k: nat)
    requires OnlyUsage(t.usages, m, k) && m < |t.mails|
    ensures k < |t.usages| && t.usages[k].mail < |t.mails|
    ensures var v := ResponseSaved(t, k);
            && OnlyUsage(v.usages, m, k) && k < |v.usages| && v.usages[k].liteSent && |v.mails| == |t.mails| && v.sendings == t.sendings
            && v.mails[m].extractType == t.mails[m].extractType
            && (t.usages[k].hasSpireData == Some(true) ==> v.mails == t.mails)
            && (t.usages[k].hasSpireData != Some(true) ==>
                  v.mails == t.mails[m := t.mails[m].(status := ReplyReceived)] && v.mails[m].status == ReplyReceived)
  {
  }

  // ---------------------------------------------------------------- runs in which every reply is passed on at once

  /** No sending fails for good, and LITE answers no usage file. */
  predicate Steady(events: seq<Event>) {
    forall k :: 0 <= k < |events| ==> !events[k].GiveUp? && !events[k].LiteAnswers?
  }

  /** A reply that was received is the one whose passing on is queued. */
  predicate Prompt(t: Tables) {
    forall m :: 0 <= m < |t.mails| && t.mails[m].status == ReplyReceived ==> t.sendings == [SpireSending(m)]
  }

  /** While emails are taken in, at most one licence mail gets a reply, and then none is in flight. */
  predicate OneAnswer(mails: seq<Mail>) {
    NoneIn(mails, ReplyReceived) || exists m :: 0 <= m < |mails| && OnlyAnswer(mails, m)
  }

  predicate OnlyAnswer(mails: seq<Mail>, m: nat)
    requires m < |mails|
  {
    && Licence(mails[m]) && mails[m].status == ReplyReceived
    && (forall i :: 0 <= i < |mails| && mails[i].status == ReplyReceived ==> i == m)
    && (forall i :: 0 <= i < |mails| ==> !InFlight(LICENCE_TYPES)(mails[i]))
  }

  lemma NewMailKeepsOneAnswer(mails: seq<Mail>, mail: Mail)
    requires OneAnswer(mails) && mail.status == Pending
    ensures OneAnswer(mails + [mail])
  {
    if m :| 0 <= m < |mails| && OnlyAnswer(mails, m) {
      assert OnlyAnswer(mails + [mail], m);
    }
  }

  lemma ReplyKeepsOneAnswer(t: Tables, number: nat, text: string)
    requires Idle(t) && OneAnswer(t.mails)
    ensures OneAnswer(Serialized(t, LicenceReplyEmail(number, text)).tables.mails)
  {
    hide LastLicence, LicencesNumbered, RowsSound, EmailsStoredOnce;
    InFlightIsLicenceData(t);
    OneInFlight(t);
    var found := MailForLicenceReply(t, number);
    if found.Chosen? {
      var k := found.mail;
      var mails := t.mails[k := WithReply(t.mails[k], LicenceReplyType, text)];
      assert InFlight(LICENCE_TYPES)(t.mails[k]);
      assert NoneIn(t.mails, ReplyReceived);
      OnlyOneFlies(t.mails, k);
      hide Positions;
      assert OnlyAnswer(mails, k);
    }
  }

  lemma OnlyOneFlies(mails: seq<Mail>, k: nat)
    requires |Positions(mails, InFlight(LICENCE_TYPES))| <= 1 && k < |mails| && InFlight(LICENCE_TYPES)(mails[k])
    ensures forall i :: 0 <= i < |mails| && i != k ==> !InFlight(LICENCE_TYPES)(mails[i])
  {
    var found := Positions(mails, InFlight(LICENCE_TYPES));
    assert k in found;
    forall i | 0 <= i < |mails| && i != k
      ensures !InFlight(LICENCE_TYPES)(mails[i])
    {
      assert InFlight(LICENCE_TYPES)(mails[i]) ==> i in found;
    }
  }

  lemma SerializedKeepsOneAnswer(t: Tables, email: Incoming)
    requires Idle(t) && OneAnswer(t.mails)
    ensures OneAnswer(Serialized(t, email).tables.mails)
  {
    hide OneAnswer, Serialized, Staged, NoneSentUnanswered;
    match email
    case LicenceReplyEmail(number, text) => ReplyKeepsOneAnswer(t, number, text);
    case UsageReplyEmail(number, text) => OthersChangeNothing(t, email);
    case OtherEmail => OthersChangeNothing(t, email);
    case _ =>
      NewEmailOnlyAddsAMail(t, email);
      var mails := Serialized(t, email).tables.mails;
      if mails != t.mails {
        var m: Mail :| m.status == Pending && mails == t.mails + [m];
        NewMailKeepsOneAnswer(t.mails, m);
      }
  }

  lemma {:induction false} SerializedAllKeepsOneAnswer(t: Tables, emails: seq<Incoming>)
    requires Idle(t) && OneAnswer(t.mails)
    ensures OneAnswer(SerializedAll(t, emails).tables.mails)
    decreases |emails|
  {
    hide Idle, OneAnswer, Serialized;
    if emails != [] {
      SerializedKeepsOneAnswer(t, emails[0]);
      SerializedKeepsIdle(t, emails[0]);
      SerializedAllKeepsOneAnswer(Serialized(t, emails[0]).tables, emails[1..]);
    }
  }

  lemma OldestOrNone(mails: seq<Mail>, status: Status) returns (m: nat)
    ensures NoneIn(mails, status) || Oldest(mails, status, m)
  {
    var found := Positions(mails, WithStatus(status));
    m := 0;
    if found == [] {
      assert forall i :: 0 <= i < |mails| ==> WithStatus(status)(mails[i]) || mails[i].status != status;
    } else {
      m := found[0];
      assert WithStatus(status)(mails[m]);
      forall i | 0 <= i < m
        ensures mails[i].status != status
      {
        assert WithStatus(status)(mails[i]) ==> i in found;
      }
    }
  }

  lemma SentOnIsPrompt(u: Tables, m: nat, files: Files)
    requires NoneIn(u.mails, ReplyReceived) && m < |u.mails| && u.mails[m].status == Pending
    ensures Prompt(SentOn(u, m, files).tables)
  {
    hide CanBeSent;
  }

  lemma NoneIsPrompt(t: Tables)
    requires NoneIn(t.mails, ReplyReceived)
    ensures Prompt(t)
  {
  }

  lemma NoUsageFlies(u: Tables, m: nat)
    requires MailsSound(u.mails) && Oldest(u.mails, ReplyPending, m)
    ensures u.mails[m].extractType != UsageDataType
  {
    assert MailSound(u.mails[m]);
  }

  lemma AnswerIsPrompt(u: Tables, m: nat, files: Files, r: Result)
    requires MailsSound(u.mails) && LicenceRowsOwn(u) && u.sendings == [] && m < |u.mails| && OnlyAnswer(u.mails, m)
    requires r ==
             if WaitsForLite(u, m) then Done(u)
             else if !CanAnswer(u, m, files) then Raised(u)
             else if AnswersLite(u, m) then
               Done(u.(mails := u.mails[m := u.mails[m].(status := ReplySent, responseSent := true)]))
             else Done(Queued(u, m))
    ensures Prompt(r.tables)
  {
    assert MailSound(u.mails[m]);
    assert |LicencesOf(u.licences, m)| == 1;
    LicencesOfExactly(u.licences, m);
    hide HasOneLicence, HasOneUsage, LicencesOf, LicenceRowsOwn;
  }

  lemma PollIsPrompt(t: Tables, emails: seq<Incoming>, files: Files, u: Tables)
    requires TakenIn(t, emails, u) && MailsSound(u.mails) && LicenceRowsOwn(u) && u.sendings == [] && OneAnswer(u.mails)
    ensures Prompt(Polled(t, emails, files).tables)
  {
    hide Polled, TakenIn, MailsSound, LicenceRowsOwn, WaitsForLite, CanAnswer, AnswersLite, SentOn, Prompt, HasOneUsage;
    if NoneIn(u.mails, ReplyReceived) {
      NoneIsPrompt(u);
      var flying := OldestOrNone(u.mails, ReplyPending);
      var waiting := OldestOrNone(u.mails, Pending);
      if Oldest(u.mails, ReplyPending, flying) {
        PollWaitsWhileInFlight(t, emails, files, u, flying);
      } else {
        PollSendsTheOldestPending(t, emails, files, u, waiting);
        if Oldest(u.mails, Pending, waiting) {
          SentOnIsPrompt(u, waiting, files);
        }
      }
    } else {
      var m :| 0 <= m < |u.mails| && OnlyAnswer(u.mails, m);
      assert Oldest(u.mails, ReplyReceived, m);
      PollPassesOnTheOldestReply(t, emails, files, u, m);
      AnswerIsPrompt(u, m, files, Polled(t, emails, files));
    }
  }

  lemma QuietPollIsPrompt(t: Tables, files: Files)
    requires NoneIn(t.mails, ReplyReceived)
    ensures Prompt(Polled(t, [], files).tables)
  {
    hide Polled, SentOn, Prompt, Jammed;
    NoneIsPrompt(t);
    var waiting := OldestOrNone(t.mails, Pending);
    QuietPollSendsTheOldestPending(t, files, waiting);
    if Oldest(t.mails, Pending, waiting) {
      SentOnIsPrompt(t, waiting, files);
    }
  }

  lemma PolledIsPrompt(t: Tables, emails: seq<Incoming>, files: Files, later: seq<string>)
    requires InOrder(t) && t.sendings == [] && Prompt(t) && LicenceRowsOwn(t)
    requires Unseen(t.mails, TextsOf(emails) + later) && Distinct(TextsOf(emails) + later)
    ensures Prompt(Polled(t, emails, files).tables)
  {
    hide Polled, LicenceRowsOwn, Unseen, Distinct, TextsOf, Staged, NoneSentUnanswered, MailsSound, SerializedAll;
    assert NoneIn(t.mails, ReplyReceived) && OneAnswer(t.mails);
    if emails == [] {
      QuietPollIsPrompt(t, files);
    } else {
      assert Idle(t);
      SerializedAllKeepsIdle(t, emails);
      SerializedAllKeepsOneAnswer(t, emails);
      SerializedAllKeepsLicenceRows(t, emails, later);
      PollIsPrompt(t, emails, files, SerializedAll(t, emails).tables);
    }
  }

  lemma FinalisedIsPrompt(t: Tables, k: nat)
    requires InOrder(t) && Prompt(t) && k < |t.sendings|
    ensures Prompt(Finalised(t, k))
  {
    hide Sound, Staged, NoneSentUnanswered, MayFinalise;
    assert Finalised(t, k).sendings == [] && k == 0;
  }

  lemma SentIsPrompt(t: Tables, valid: bool)
    requires Prompt(t) && t.sendings == []
    ensures Prompt(LiteSent(t, valid))
  {
  }

  lemma NextIsPrompt(t: Tables, e: Event, later: seq<string>)
    requires InOrder(t) && Prompt(t) && LicenceRowsOwn(t) && Enabled(t, e) && MayStart(t, e)
    requires !e.GiveUp? && !e.LiteAnswers?
    requires Unseen(t.mails, LicenceTexts([e]) + later) && Distinct(LicenceTexts([e]) + later)
    ensures Prompt(Next(t, e))
  {
    OneEvent(e);
    hide InOrder, LicenceRowsOwn, Unseen, Distinct, TextsOf, LicenceTexts, Polled, LiteSent, Finalised;
    match e
    case Poll(emails, files) => PolledIsPrompt(t, emails, files, later);
    case SendLite(valid) => SentIsPrompt(t, valid);
    case Deliver(k) => FinalisedIsPrompt(t, k);
    case _ =>
  }

  lemma {:induction false} RunIsPrompt(t: Tables, events: seq<Event>)
    requires InOrder(t) && Prompt(t) && LicenceRowsOwn(t) && Possible(t, events) && Guarded(t, events) && Steady(events)
    requires Unseen(t.mails, LicenceTexts(events)) && Distinct(LicenceTexts(events))
    ensures Prompt(Run(t, events)) && InOrder(Run(t, events))
    decreases |events|
  {
    hide LicenceRowsOwn, Unseen, Distinct, TextsOf, Next, Enabled, Prompt, MayStart, Staged, NoneSentUnanswered, OneSending, Sound;
    if events != [] {
      OneEvent(events[0]);
      var later := LicenceTexts(events[1..]);
      NextIsPrompt(t, events[0], later);
      NextKeepsOrder(t, events[0]);
      NextKeepsLicenceRows(t, events[0], later);
      DistinctSuffix(LicenceTexts([events[0]]), later);
      RunIsPrompt(Next(t, events[0]), events[1..]);
    }
  }

  /**
   In every guarded run in which no sending fails for good, LITE answers no usage file and no licence
   email's text recurs: whenever no finalising task is outstanding, every licence reply that was
   ever stored has been passed on.
   */
  lemma EveryReplyIsPassedOn(events: seq<Event>, m: nat)
    requires Possible(NO_TABLES, events) && Guarded(NO_TABLES, events) && Steady(events) && Distinct(LicenceTexts(events))
    requires Run(NO_TABLES, events).sendings == [] && m < |Run(NO_TABLES, events).mails|
    requires Licence(Run(NO_TABLES, events).mails[m]) && Run(NO_TABLES, events).mails[m].response.Some?
    ensures Run(NO_TABLES, events).mails[m].status == ReplySent && Run(NO_TABLES, events).mails[m].responseSent
  {
    hide Next, Enabled, MayStart, LicenceTexts, Distinct, Steady, LicencesOf, Possible, Guarded, Run, TextsOf;
    RunIsPrompt(NO_TABLES, events);
    assert MailSound(Run(NO_TABLES, events).mails[m]);
  }
}
