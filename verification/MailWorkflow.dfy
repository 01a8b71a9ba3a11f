/**
 The mail workflow: emails are taken in, one mail at a time is sent on, a finalising task records
 the sending, and LITE's own licences and its answers join in.

 Each method is proved against a function on the tables; the whole-run claims are about those.
 */
module MailWorkflow {
  import opened Text
  import opened MailTables
  import opened RunNumbers
  import LicenceReply

  /** What a call leaves behind, whether it returned or raised. */
  datatype Result = Done(tables: Tables) | Raised(tables: Tables)

  /** An incoming email; `acceptable` is the verdict of the serializer's field validation. */
  datatype Incoming =
    | LicenceDataEmail(raw: string, source: Source, runNumber: nat, acceptable: bool)
    | UsageDataEmail(raw: string, runNumber: nat, hasLiteData: Option<bool>, hasSpireData: Option<bool>, acceptable: bool)
    | LicenceReplyEmail(runNumber: nat, text: string)
    | UsageReplyEmail(runNumber: nat, text: string)
    | OtherEmail

  /**
   What the sent file depends on beside the tables: whether the usage file has a block of SPIRE's,
   and whether the replies to it can be merged.
   */
  datatype Files = Files(ownsSpireBlock: bool, mergeable: bool)

  datatype Choice = Nothing | Chosen(mail: nat) | Failure

  /** The message for a mail: none, one that cannot be built, one to post, one only to record. */
  datatype Outgoing = NoMessage | Unbuildable | Posted | Recorded

  const ANSWERED: set<Status> := {ReplyReceived, ReplySent}

  // ---------------------------------------------------------------- taking emails in

  function NewMail(extractType: ExtractType, content: Content): Mail {
    Mail(extractType, Pending, content, None, false, false)
  }

  function Same(extractType: ExtractType, content: Content): Mail -> bool {
    (m: Mail) => m.extractType == extractType && m.content == content
  }

  function AddLicenceRow(t: Tables, row: LicenceRow): Tables {
    if row in t.licences then t else t.(licences := t.licences + [row])
  }

  predicate WasRejected(m: Mail) {
    m.response.Some? && Contains(m.response.value, "rejected")
  }

  /** `LicenceDataMailSerializer.create`. */
  function SaveLicenceData(t: Tables, raw: string, source: Source, given: nat): Result {
    var number := NewHmrcRunNumber(t.licences, given);
    var duplicates := Positions(t.mails, Same(LicenceDataType, Email(raw)));
    if duplicates != [] && !WasRejected(t.mails[duplicates[0]]) then
      if |duplicates| > 1 then Raised(t)
      else Done(AddLicenceRow(t, LicenceRow(number, Some(given), source, duplicates[0], {})))
    else
      Done(AddLicenceRow(t.(mails := t.mails + [NewMail(LicenceDataType, Email(raw))]),
                         LicenceRow(number, Some(given), source, |t.mails|, {})))
  }

  /** `UsageDataMailSerializer.create` and `UsageDataSerializer.create`. */
  function SaveUsageData(t: Tables, raw: string, given: nat, hasLiteData: Option<bool>, hasSpireData: Option<bool>): Result {
    var duplicates := Positions(t.mails, Same(UsageDataType, Email(raw)));
    if |duplicates| > 1 then Raised(t)
    else if |duplicates| == 1 then Done(t)
    else
      var row := UsageRow(NewSpireRunNumber(t.usages, given), given, |t.mails|, hasLiteData, hasSpireData, false);
      Done(t.(mails := t.mails + [NewMail(UsageDataType, Email(raw))], usages := t.usages + [row]))
  }

  function InFlight(types: set<ExtractType>): Mail -> bool {
    (m: Mail) => m.status == ReplyPending && m.extractType in types
  }

  /** `find_mail_of` for a reply. */
  function FindMailOf(mails: seq<Mail>, types: set<ExtractType>): (r: Choice)
    ensures r.Chosen? ==> r.mail < |mails|
  {
    var found := Positions(mails, InFlight(types));
    if found == [] then Nothing else if |found| == 1 then Chosen(found[0]) else Failure
  }

  function LicencesNumbered(rows: seq<LicenceRow>, number: nat): seq<LicenceRow> {
    if rows == [] then []
    else
      var n := |rows| - 1;
      LicencesNumbered(rows[..n], number) + if rows[n].hmrcRunNumber == number then [rows[n]] else []
  }

  function UsagesNumbered(rows: seq<UsageRow>, number: nat): seq<UsageRow> {
    if rows == [] then []
    else
      var n := |rows| - 1;
      UsagesNumbered(rows[..n], number) + if rows[n].spireRunNumber == number then [rows[n]] else []
  }

  predicate Answered(mails: seq<Mail>, mail: nat) {
    mail < |mails| && mails[mail].status in ANSWERED
  }

  const LICENCE_TYPES: set<ExtractType> := {LicenceDataType, LicenceReplyType}

  /** `get_mail_instance` for a licence reply. */
  function MailForLicenceReply(t: Tables, number: nat): (r: Choice)
    ensures r.Chosen? ==> r.mail < |t.mails|
  {
    var last := LastLicence(LicencesNumbered(t.licences, number));
    if last.Some? && Answered(t.mails, last.value.mail) then Nothing else FindMailOf(t.mails, LICENCE_TYPES)
  }

  /** `get_mail_instance` for a usage reply. */
  function MailForUsageReply(t: Tables, number: nat): (r: Choice)
    ensures r.Chosen? ==> r.mail < |t.mails|
  {
    var last := LastUsage(UsagesNumbered(t.usages, number));
    if last.Some? && Answered(t.mails, last.value.mail) then Nothing else FindMailOf(t.mails, {UsageDataType})
  }

  /** `UpdateResponseSerializer`: the mail takes the type of the reply. */
  function WithReply(m: Mail, extractType: ExtractType, text: string): Mail {
    m.(extractType := extractType, status := ReplyReceived, response := Some(text))
  }

  function ReplySaved(t: Tables, found: Choice, extractType: ExtractType, text: string): Result
    requires found.Chosen? ==> found.mail < |t.mails|
  {
    match found
    case Nothing => Done(t)
    case Failure => Raised(t)
    case Chosen(m) => Done(t.(mails := t.mails[m := WithReply(t.mails[m], extractType, text)]))
  }

  /** `serialize_email_message`; an email that fails validation is marked and skipped. */
  function Serialized(t: Tables, email: Incoming): Result {
    match email
    case LicenceDataEmail(raw, source, given, acceptable) => if acceptable then SaveLicenceData(t, raw, source, given) else Done(t)
    case UsageDataEmail(raw, given, lite, spire, acceptable) => if acceptable then SaveUsageData(t, raw, given, lite, spire) else Done(t)
    case LicenceReplyEmail(number, text) => ReplySaved(t, MailForLicenceReply(t, number), LicenceReplyType, text)
    case UsageReplyEmail(number, text) => ReplySaved(t, MailForUsageReply(t, number), UsageReplyType, text)
    case OtherEmail => Done(t)
  }

  function SerializedAll(t: Tables, emails: seq<Incoming>): Result
    decreases |emails|
  {
    if emails == [] then Done(t)
    else
      match Serialized(t, emails[0])
      case Raised(u) => Raised(u)
      case Done(u) => SerializedAll(u, emails[1..])
  }

  // ---------------------------------------------------------------- choosing a mail

  function WithStatus(status: Status): Mail -> bool {
    (m: Mail) => m.status == status
  }

  function LicenceDataWith(status: Status): Mail -> bool {
    (m: Mail) => m.extractType == LicenceDataType && m.status == status
  }

  /** `select_email_for_sending`. */
  function Selected(t: Tables): (r: Choice)
    ensures r.Chosen? ==> r.mail < |t.mails|
  {
    var received := Positions(t.mails, WithStatus(ReplyReceived));
    if received != [] then
      var m := received[0];
      var rows := UsagesOf(t.usages, m);
      if t.mails[m].extractType != UsageDataType then Chosen(m)
      else if |rows| != 1 then Failure
      else if rows[0].hasLiteData == Some(true) && !rows[0].liteSent then Nothing
      else Chosen(m)
    else
      var waiting := Positions(t.mails, WithStatus(ReplyPending));
      if waiting != [] then
        var m := waiting[0];
        var rows := UsagesOf(t.usages, m);
        if t.mails[m].extractType != UsageDataType then Nothing
        else if |rows| != 1 then Failure
        else if rows[0].hasSpireData == Some(true) then Nothing
        else Chosen(m)
      else
        var pending := Positions(t.mails, WithStatus(Pending));
        if pending != [] then Chosen(pending[0]) else Nothing
  }

  /** `check_for_pending_messages`. */
  function PendingMessage(t: Tables): (r: Choice)
    ensures r.Chosen? ==> r.mail < |t.mails|
  {
    var pending := Positions(t.mails, WithStatus(Pending));
    if |Positions(t.mails, LicenceDataWith(Pending))| > 1 then Failure
    else if pending == [] then Nothing
    else if Positions(t.mails, LicenceDataWith(ReplyPending)) != [] && t.mails[pending[0]].extractType == LicenceDataType then Failure
    else Chosen(pending[0])
  }

  // ---------------------------------------------------------------- sending it on

  /** `to_email_message_dto_from`, and where `_collect_and_send` takes its message. */
  function MessageFor(t: Tables, m: nat, files: Files): Outgoing
    requires m < |t.mails|
  {
    var mail := t.mails[m];
    var licences := LicencesOf(t.licences, m);
    var usages := UsagesOf(t.usages, m);
    match mail.status
    case Pending =>
      (match mail.extractType
       case LicenceDataType => if |licences| == 1 then Posted else Unbuildable
       case UsageDataType => if |usages| != 1 then Unbuildable else if files.ownsSpireBlock then Posted else Recorded
       case _ => Recorded)
    case ReplyReceived =>
      if mail.extractType == UsageDataType then (if |usages| == 1 && files.mergeable then Posted else Unbuildable)
      else if mail.extractType == UsageReplyType then (if mail.response.Some? then Posted else Unbuildable)
      else if |licences| != 1 || mail.response.None? then Unbuildable
      else if licences[0].source == Lite then Recorded
      else Posted
    case ReplyPending => NoMessage
    case ReplySent => NoMessage
  }

  /** `update_mail`. */
  function Updated(m: Mail): Mail {
    if m.status == Pending then m.(status := if m.extractType == UsageDataType then ReplySent else ReplyPending, sent := true)
    else m.(status := ReplySent, responseSent := true)
  }

  function UpdatedMail(t: Tables, m: nat): Tables
    requires m < |t.mails|
  {
    t.(mails := t.mails[m := Updated(t.mails[m])])
  }

  /** `_collect_and_send`: whether the lock was obtained is only logged. */
  function Collected(t: Tables, m: nat, files: Files): Result
    requires m < |t.mails|
  {
    match MessageFor(t, m, files)
    case NoMessage => Done(t)
    case Unbuildable => Raised(t)
    case Posted => Done(t.(sendings := t.sendings + [SpireSending(m)]))
    case Recorded => Done(UpdatedMail(t, m))
  }

  function Routed(t: Tables, choice: Choice, files: Files): Result
    requires choice.Chosen? ==> choice.mail < |t.mails|
  {
    match choice
    case Nothing => Done(t)
    case Failure => Raised(t)
    case Chosen(m) => Collected(t, m, files)
  }

  /** `check_and_route_emails`: one poll. */
  function Polled(t: Tables, emails: seq<Incoming>, files: Files): Result {
    if emails == [] then Routed(t, PendingMessage(t), files)
    else
      match SerializedAll(t, emails)
      case Raised(u) => Raised(u)
      case Done(u) => Routed(u, Selected(u), files)
  }

  // ---------------------------------------------------------------- tasks

  function Without(sendings: seq<Sending>, k: nat): seq<Sending>
    requires k < |sendings|
  {
    sendings[..k] + sendings[k + 1..]
  }

  /** A LicencePayload is saved. */
  function PayloadSaved(t: Tables, payload: LicenceReply.Payload): Tables {
    t.(received := t.received + [payload], waiting := t.waiting + {|t.received|})
  }

  /** Both `finalise_sending_*_licence_details` tasks. */
  function Finalised(t: Tables, k: nat): Tables
    requires k < |t.sendings| && t.sendings[k].mail < |t.mails|
  {
    var u := UpdatedMail(t, t.sendings[k].mail).(sendings := Without(t.sendings, k));
    match t.sendings[k]
    case SpireSending(_) => u
    case LiteSending(_, payloads) => u.(waiting := t.waiting - payloads, processed := t.processed + payloads * t.waiting)
  }

  /** An email whose last retry failed: the linked task never starts. */
  function GivenUp(t: Tables, k: nat): Tables
    requires k < |t.sendings|
  {
    t.(sendings := Without(t.sendings, k))
  }

  /** `build_licence_data_mail`'s run number. */
  function NextLiteNumber(rows: seq<LicenceRow>): nat {
    match LastLicence(rows)
    case None => 1
    case Some(last) => last.hmrcRunNumber + 1
  }

  predicate AllSent(mails: seq<Mail>) {
    forall k :: 0 <= k < |mails| ==> mails[k].status == ReplySent
  }

  /** `send_licence_details_to_hmrc`; `valid` says that the file passes its validation. */
  function LiteSent(t: Tables, valid: bool): Tables {
    if !AllSent(t.mails) || t.waiting == {} || !valid then t
    else
      var number := NextLiteNumber(t.licences);
      t.(mails := t.mails + [NewMail(LicenceDataType, Built(number))],
         licences := t.licences + [LicenceRow(number, None, Lite, |t.mails|, t.waiting)],
         sendings := t.sendings + [LiteSending(|t.mails|, t.waiting)])
  }

  /** `save_response`: LITE has answered for a usage file. */
  function ResponseSaved(t: Tables, k: nat): Tables
    requires k < |t.usages| && t.usages[k].mail < |t.mails|
  {
    var row := t.usages[k];
    var u := t.(usages := t.usages[k := row.(liteSent := true)]);
    if row.hasSpireData != Some(true) then
      u.(mails := t.mails[row.mail := t.mails[row.mail].(status := ReplyReceived)])
    else u
  }

  // ---------------------------------------------------------------- the tables, updated in place

  class Workflow {
    var mails: seq<Mail>
    var licences: seq<LicenceRow>
    var usages: seq<UsageRow>
    var received: seq<LicenceReply.Payload>
    var waiting: set<nat>
    var processed: set<nat>
    var sendings: seq<Sending>

    function Value(): Tables
      reads this
    {
      Tables(mails, licences, usages, received, waiting, processed, sendings)
    }

    constructor ()
      ensures Value() == NO_TABLES
    {
      mails, licences, usages, received, waiting, processed, sendings := [], [], [], [], {}, {}, [];
    }

    method GetOrCreateLicenceRow(row: LicenceRow)
      modifies this`licences
      ensures Value() == AddLicenceRow(old(Value()), row)
    {
      if row !in licences {
        licences := licences + [row];
      }
    }

    /** The serializer that `create`s a licence mail. */
    method CreateLicenceData(raw: string, source: Source, given: nat) returns (raised: bool)
      modifies this`mails, this`licences
      ensures Value() == SaveLicenceData(old(Value()), raw, source, given).tables
      ensures raised == SaveLicenceData(old(Value()), raw, source, given).Raised?
    {
      var number := NewHmrcRunNumber(licences, given);
      var duplicates := Positions(mails, Same(LicenceDataType, Email(raw)));
      var mail := |mails|;
      if duplicates != [] && !WasRejected(mails[duplicates[0]]) {
        if |duplicates| > 1 {
          return true;
        }
        mail := duplicates[0];
      } else {
        mails := mails + [NewMail(LicenceDataType, Email(raw))];
      }
      GetOrCreateLicenceRow(LicenceRow(number, Some(given), source, mail, {}));
      return false;
    }

    method CreateUsageData(raw: string, given: nat, hasLiteData: Option<bool>, hasSpireData: Option<bool>)
      returns (raised: bool)
      modifies this`mails, this`usages
      ensures Value() == SaveUsageData(old(Value()), raw, given, hasLiteData, hasSpireData).tables
      ensures raised == SaveUsageData(old(Value()), raw, given, hasLiteData, hasSpireData).Raised?
    {
      var duplicates := Positions(mails, Same(UsageDataType, Email(raw)));
      if |duplicates| > 1 {
        return true;
      }
      if duplicates == [] {
        var number := NewSpireRunNumber(usages, given);
        usages := usages + [UsageRow(number, given, |mails|, hasLiteData, hasSpireData, false)];
        mails := mails + [NewMail(UsageDataType, Email(raw))];
      }
      return false;
    }

    method SaveReply(found: Choice, extractType: ExtractType, text: string) returns (raised: bool)
      requires found.Chosen? ==> found.mail < |mails|
      modifies this`mails
      ensures Value() == ReplySaved(old(Value()), found, extractType, text).tables
      ensures raised == ReplySaved(old(Value()), found, extractType, text).Raised?
    {
      if found.Chosen? {
        var mail := mails[found.mail].(extractType := extractType);
        mail := mail.(status := ReplyReceived);
        mail := mail.(response := Some(text));
        mails := mails[found.mail := mail];
      }
      return found.Failure?;
    }

    method SerializeEmailMessage(email: Incoming) returns (raised: bool)
      modifies this`mails, this`licences, this`usages
      ensures Value() == Serialized(old(Value()), email).tables
      ensures raised == Serialized(old(Value()), email).Raised?
    {
      raised := false;
      match email {
        case LicenceDataEmail(raw, source, given, acceptable) =>
          if acceptable {
            raised := CreateLicenceData(raw, source, given);
          }
        case UsageDataEmail(raw, given, lite, spire, acceptable) =>
          if acceptable {
            raised := CreateUsageData(raw, given, lite, spire);
          }
        case LicenceReplyEmail(number, text) =>
          var found := MailForLicenceReply(Value(), number);
          raised := SaveReply(found, LicenceReplyType, text);
        case UsageReplyEmail(number, text) =>
          var found := MailForUsageReply(Value(), number);
          raised := SaveReply(found, UsageReplyType, text);
        case OtherEmail =>
      }
    }

    method UpdateMail(m: nat)
      requires m < |mails|
      modifies this`mails
      ensures Value() == UpdatedMail(old(Value()), m)
    {
      var mail := mails[m];
      if mail.status == Pending {
        mail := mail.(status := ReplyPending, sent := true);
        if mail.extractType == UsageDataType {
          mail := mail.(status := ReplySent);
        }
      } else {
        mail := mail.(status := ReplySent, responseSent := true);
      }
      mails := mails[m := mail];
    }

    method CollectAndSend(m: nat, files: Files) returns (raised: bool)
      requires m < |mails|
      modifies this`mails, this`sendings
      ensures Value() == Collected(old(Value()), m, files).tables
      ensures raised == Collected(old(Value()), m, files).Raised?
    {
      var message := MessageFor(Value(), m, files);
      if message == Unbuildable {
        return true;
      }
      if message == Posted {
        sendings := sendings + [SpireSending(m)];
      } else if message == Recorded {
        UpdateMail(m);
      }
      return false;
    }

    /** One poll: `check_and_route_emails`. */
    method CheckAndRouteEmails(emails: seq<Incoming>, files: Files) returns (raised: bool)
      modifies this`mails, this`licences, this`usages, this`sendings
      ensures Value() == Polled(old(Value()), emails, files).tables
      ensures raised == Polled(old(Value()), emails, files).Raised?
    {
      hide Serialized, Selected, PendingMessage, Collected;
      var choice: Choice;
      if emails == [] {
        choice := PendingMessage(Value());
      } else {
        var i := 0;
        assert emails[0..] == emails;
        while i < |emails|
          invariant 0 <= i <= |emails|
          invariant SerializedAll(Value(), emails[i..]) == SerializedAll(old(Value()), emails)
          invariant sendings == old(sendings) && received == old(received)
          invariant waiting == old(waiting) && processed == old(processed)
        {
          assert emails[i..][1..] == emails[i + 1..];
          raised := SerializeEmailMessage(emails[i]);
          if raised {
            return;
          }
          i := i + 1;
        }
        choice := Selected(Value());
      }
      raised := choice.Failure?;
      if choice.Chosen? {
        raised := CollectAndSend(choice.mail, files);
      }
    }

    /** The task linked to a queued email, once it has been delivered. */
    method FinaliseSending(k: nat)
      requires k < |sendings| && sendings[k].mail < |mails|
      modifies this`mails, this`waiting, this`processed, this`sendings
      ensures Value() == Finalised(old(Value()), k)
    {
      var task := sendings[k];
      sendings := sendings[..k] + sendings[k + 1..];
      UpdateMail(task.mail);
      if task.LiteSending? {
        var payloads := task.payloads * waiting;
        processed := processed + payloads;
        waiting := waiting - payloads;
        assert waiting == old(waiting) - task.payloads;
      }
    }

    method SendLicenceDetailsToHmrc(valid: bool)
      modifies this`mails, this`licences, this`sendings
      ensures Value() == LiteSent(old(Value()), valid)
    {
      var open := false;
      for i := 0 to |mails|
        invariant open <==> exists k :: 0 <= k < i && mails[k].status != ReplySent
      {
        open := open || mails[i].status != ReplySent;
      }
      if open || waiting == {} || !valid {
        return;
      }
      var number := NextLiteNumber(licences);
      var mail := |mails|;
      mails := mails + [NewMail(LicenceDataType, Built(number))];
      licences := licences + [LicenceRow(number, None, Lite, mail, waiting)];
      sendings := sendings + [LiteSending(mail, waiting)];
    }

    method SaveResponse(k: nat)
      requires k < |usages| && usages[k].mail < |mails|
      modifies this`mails, this`usages
      ensures Value() == ResponseSaved(old(Value()), k)
    {
      var row := usages[k];
      if row.hasSpireData != Some(true) {
        mails := mails[row.mail := mails[row.mail].(status := ReplyReceived)];
      }
      usages := usages[k := row.(liteSent := true)];
    }
  }
}
