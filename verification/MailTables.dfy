/**
 The tables of the mail workflow. `mails` is in creation order and a row names its mail by index,
 which is what the orderings by `created_at` and `mail__created_at` come to.
 */
module MailTables {
  import opened Text
  import LicenceReply

  datatype ExtractType = LicenceDataType | LicenceReplyType | UsageDataType | UsageReplyType

  datatype Status = Pending | ReplyPending | ReplyReceived | ReplySent

  datatype Source = Spire | Lite | Hmrc | Icms

  /** What `get_or_create` compares: an email's own text, or a file built from licence payloads. */
  datatype Content = Email(raw: string) | Built(runNumber: nat)

  datatype Mail = Mail(
    extractType: ExtractType,
    status: Status,
    content: Content,
    response: Option<string>,
    sent: bool,
    responseSent: bool)

  datatype LicenceRow = LicenceRow(
    hmrcRunNumber: nat,
    sourceRunNumber: Option<nat>,
    source: Source,
    mail: nat,
    payloads: set<nat>)

  datatype UsageRow = UsageRow(
    spireRunNumber: nat,
    hmrcRunNumber: nat,
    mail: nat,
    hasLiteData: Option<bool>,
    hasSpireData: Option<bool>,
    liteSent: bool)

  /** A queued email whose delivery is followed by `finalise_sending_*_licence_details`. */
  datatype Sending =
    | SpireSending(mail: nat)
    | LiteSending(mail: nat, payloads: set<nat>)

  /**
   `received` are the LicencePayload rows in the order they came; `waiting` and `processed` say
   which of them, by position, are unprocessed and processed.
   */
  datatype Tables = Tables(
    mails: seq<Mail>,
    licences: seq<LicenceRow>,
    usages: seq<UsageRow>,
    received: seq<LicenceReply.Payload>,
    waiting: set<nat>,
    processed: set<nat>,
    sendings: seq<Sending>)

  const NO_TABLES := Tables([], [], [], [], {}, {}, [])

  /** The payload rows at some positions, in the order they came. */
  function PayloadsAt(received: seq<LicenceReply.Payload>, ids: set<nat>): seq<LicenceReply.Payload> {
    if received == [] then []
    else
      var n := |received| - 1;
      PayloadsAt(received[..n], ids) + if n in ids then [received[n]] else []
  }

  /** `.last()` under `ordering = ["mail__created_at"]`; rows of one mail in order of creation. */
  function LastLicence(rows: seq<LicenceRow>): (r: Option<LicenceRow>)
    ensures r.None? <==> rows == []
    ensures r.Some? ==> r.value in rows && forall k :: 0 <= k < |rows| ==> rows[k].mail <= r.value.mail
  {
    if rows == [] then None
    else
      var last := rows[|rows| - 1];
      match LastLicence(rows[..|rows| - 1])
      case None => Some(last)
      case Some(other) => if other.mail > last.mail then Some(other) else Some(last)
  }

  function LastUsage(rows: seq<UsageRow>): (r: Option<UsageRow>)
    ensures r.None? <==> rows == []
    ensures r.Some? ==> r.value in rows && forall k :: 0 <= k < |rows| ==> rows[k].mail <= r.value.mail
  {
    if rows == [] then None
    else
      var last := rows[|rows| - 1];
      match LastUsage(rows[..|rows| - 1])
      case None => Some(last)
      case Some(other) => if other.mail > last.mail then Some(other) else Some(last)
  }

  /** A query on the mails: the positions of those it admits, in creation order. */
  function Positions(mails: seq<Mail>, admits: Mail -> bool): (r: seq<nat>)
    ensures forall k :: 0 <= k < |r| ==> r[k] < |mails| && admits(mails[r[k]])
    ensures forall i :: 0 <= i < |mails| && admits(mails[i]) ==> i in r
    ensures forall j, k :: 0 <= j < k < |r| ==> r[j] < r[k]
  {
    if mails == [] then []
    else
      var n := |mails| - 1;
      var before := Positions(mails[..n], admits);
      if admits(mails[n]) then before + [n] else before
  }

  lemma {:induction false} PositionsNone(mails: seq<Mail>, admits: Mail -> bool)
    requires forall k :: 0 <= k < |mails| ==> !admits(mails[k])
    ensures Positions(mails, admits) == []
  {
    if mails != [] {
      PositionsNone(mails[..|mails| - 1], admits);
    }
  }

  lemma {:induction false} PositionsAtMostOne(mails: seq<Mail>, admits: Mail -> bool)
    requires forall i, j :: 0 <= i < j < |mails| ==> !(admits(mails[i]) && admits(mails[j]))
    ensures |Positions(mails, admits)| <= 1
  {
    if mails != [] {
      var n := |mails| - 1;
      if admits(mails[n]) {
        PositionsNone(mails[..n], admits);
      } else {
        PositionsAtMostOne(mails[..n], admits);
      }
    }
  }

  /** The licence rows of one mail. */
  function LicencesOf(rows: seq<LicenceRow>, mail: nat): (r: seq<LicenceRow>)
    ensures forall k :: 0 <= k < |r| ==> r[k] in rows && r[k].mail == mail
  {
    if rows == [] then []
    else
      var n := |rows| - 1;
      LicencesOf(rows[..n], mail) + if rows[n].mail == mail then [rows[n]] else []
  }

  function UsagesOf(rows: seq<UsageRow>, mail: nat): (r: seq<UsageRow>)
    ensures forall k :: 0 <= k < |r| ==> r[k] in rows && r[k].mail == mail
  {
    if rows == [] then []
    else
      var n := |rows| - 1;
      UsagesOf(rows[..n], mail) + if rows[n].mail == mail then [rows[n]] else []
  }
}
