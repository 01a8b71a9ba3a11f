/**
 Which mail an incoming reply is stored on, for all tables.
 */
module ReplyStorage {
  import opened Text
  import opened MailTables
  import opened MailWorkflow

  // ---------------------------------------------------------------- the latest row of a number

  /** The `k`-th row has the number, and no row of that number is of a later mail or comes after it for the same one. */
  predicate LatestLicence(rows: seq<LicenceRow>, number: nat, k: nat) {
    && k < |rows| && rows[k].hmrcRunNumber == number
    && forall j :: 0 <= j < |rows| && rows[j].hmrcRunNumber == number ==>
         rows[j].mail < rows[k].mail || (rows[j].mail == rows[k].mail && j <= k)
  }

  predicate LatestUsage(rows: seq<UsageRow>, number: nat, k: nat) {
    && k < |rows| && rows[k].spireRunNumber == number
    && forall j :: 0 <= j < |rows| && rows[j].spireRunNumber == number ==>
         rows[j].mail < rows[k].mail || (rows[j].mail == rows[k].mail && j <= k)
  }

  lemma LastLicencePush(rows: seq<LicenceRow>, row: LicenceRow)
    ensures LastLicence(rows + [row]) ==
            if LastLicence(rows).Some? && LastLicence(rows).value.mail > row.mail then LastLicence(rows) else Some(row)
  {
    assert (rows + [row])[..|rows|] == rows;
  }

  lemma LatestLicenceStays(rows: seq<LicenceRow>, number: nat, k: nat, n: nat)
    requires |rows| == n + 1 && LatestLicence(rows[..n], number, k)
    ensures if rows[n].hmrcRunNumber != number || rows[k].mail > rows[n].mail then LatestLicence(rows, number, k)
            else LatestLicence(rows, number, n)
  {
    forall j | 0 <= j < |rows| && rows[j].hmrcRunNumber == number && j != n
      ensures rows[j].mail < rows[k].mail || (rows[j].mail == rows[k].mail && j <= k)
    {
      assert rows[..n][j] == rows[j];
    }
  }

  lemma LatestLicenceIsFirst(rows: seq<LicenceRow>, number: nat, n: nat)
    requires |rows| == n + 1 && forall j :: 0 <= j < n ==> rows[..n][j].hmrcRunNumber != number
    ensures rows[n].hmrcRunNumber == number ==> LatestLicence(rows, number, n)
    ensures rows[n].hmrcRunNumber != number ==> forall j :: 0 <= j <= n ==> rows[j].hmrcRunNumber != number
  {
    forall j | 0 <= j < n
      ensures rows[j].hmrcRunNumber != number
    {
      assert rows[..n][j] == rows[j];
    }
  }

  lemma {:induction false} LatestLicenceFound(rows: seq<LicenceRow>, number: nat) returns (k: nat)
    ensures LastLicence(LicencesNumbered(rows, number)).None? ==>
              forall j :: 0 <= j < |rows| ==> rows[j].hmrcRunNumber != number
    ensures LastLicence(LicencesNumbered(rows, number)).Some? ==>
              LatestLicence(rows, number, k) && LastLicence(LicencesNumbered(rows, number)) == Some(rows[k])
  {
    k := 0;
    if rows != [] {
      var n := |rows| - 1;
      var before := LicencesNumbered(rows[..n], number);
      k := LatestLicenceFound(rows[..n], number);
      LastLicencePush(before, rows[n]);
      assert before + [] == before;
      assert LicencesNumbered(rows, number) == if rows[n].hmrcRunNumber == number then before + [rows[n]] else before;
      hide LastLicence, LatestLicence, LicencesNumbered;
      if LastLicence(before).None? {
        LatestLicenceIsFirst(rows, number, n);
        k := n;
      } else {
        LatestLicenceInRange(rows[..n], number, k);
        LatestLicenceStays(rows, number, k, n);
        if rows[n].hmrcRunNumber == number && rows[k].mail <= rows[n].mail {
          k := n;
        }
      }
    }
  }

  lemma LatestLicenceInRange(rows: seq<LicenceRow>, number: nat, k: nat)
    requires LatestLicence(rows, number, k)
    ensures k < |rows|
  {
  }

  lemma LastUsagePush(rows: seq<UsageRow>, row: UsageRow)
    ensures LastUsage(rows + [row]) ==
            if LastUsage(rows).Some? && LastUsage(rows).value.mail > row.mail then LastUsage(rows) else Some(row)
  {
    assert (rows + [row])[..|rows|] == rows;
  }

  lemma LatestUsageStays(rows: seq<UsageRow>, number: nat, k: nat, n: nat)
    requires |rows| == n + 1 && LatestUsage(rows[..n], number, k)
    ensures if rows[n].spireRunNumber != number || rows[k].mail > rows[n].mail then LatestUsage(rows, number, k)
            else LatestUsage(rows, number, n)
  {
    forall j | 0 <= j < |rows| && rows[j].spireRunNumber == number && j != n
      ensures rows[j].mail < rows[k].mail || (rows[j].mail == rows[k].mail && j <= k)
    {
      assert rows[..n][j] == rows[j];
    }
  }

  lemma LatestUsageIsFirst(rows: seq<UsageRow>, number: nat, n: nat)
    requires |rows| == n + 1 && forall j :: 0 <= j < n ==> rows[..n][j].spireRunNumber != number
    ensures rows[n].spireRunNumber == number ==> LatestUsage(rows, number, n)
    ensures rows[n].spireRunNumber != number ==> forall j :: 0 <= j <= n ==> rows[j].spireRunNumber != number
  {
    forall j | 0 <= j < n
      ensures rows[j].spireRunNumber != number
    {
      assert rows[..n][j] == rows[j];
    }
  }

  lemma {:induction false} LatestUsageFound(rows: seq<UsageRow>, number: nat) returns (k: nat)
    ensures LastUsage(UsagesNumbered(rows, number)).None? ==>
              forall j :: 0 <= j < |rows| ==> rows[j].spireRunNumber != number
    ensures LastUsage(UsagesNumbered(rows, number)).Some? ==>
              LatestUsage(rows, number, k) && LastUsage(UsagesNumbered(rows, number)) == Some(rows[k])
  {
    k := 0;
    if rows != [] {
      var n := |rows| - 1;
      var before := UsagesNumbered(rows[..n], number);
      k := LatestUsageFound(rows[..n], number);
      LastUsagePush(before, rows[n]);
      assert before + [] == before;
      assert UsagesNumbered(rows, number) == if rows[n].spireRunNumber == number then before + [rows[n]] else before;
      hide LastUsage, LatestUsage, UsagesNumbered;
      if LastUsage(before).None? {
        LatestUsageIsFirst(rows, number, n);
        k := n;
      } else {
        LatestUsageInRange(rows[..n], number, k);
        LatestUsageStays(rows, number, k, n);
        if rows[n].spireRunNumber == number && rows[k].mail <= rows[n].mail {
          k := n;
        }
      }
    }
  }

  lemma LatestUsageInRange(rows: seq<UsageRow>, number: nat, k: nat)
    requires LatestUsage(rows, number, k)
    ensures k < |rows|
  {
  }

  predicate HasReply(mails: seq<Mail>, m: nat) {
    m < |mails| && (mails[m].status == ReplyReceived || mails[m].status == ReplySent)
  }

  /** The latest file of the number has been answered. */
  predicate LicenceAnswered(t: Tables, number: nat) {
    exists k :: 0 <= k < |t.licences| && LatestLicence(t.licences, number, k) && HasReply(t.mails, t.licences[k].mail)
  }

  predicate UsageAnswered(t: Tables, number: nat) {
    exists k :: 0 <= k < |t.usages| && LatestUsage(t.usages, number, k) && HasReply(t.mails, t.usages[k].mail)
  }

  lemma LicenceAnsweredIs(t: Tables, number: nat)
    ensures var last := LastLicence(LicencesNumbered(t.licences, number));
            (last.Some? && Answered(t.mails, last.value.mail)) <==> LicenceAnswered(t, number)
  {
    hide LastLicence, LicencesNumbered;
    var found := LatestLicenceFound(t.licences, number);
    if k :| 0 <= k < |t.licences| && LatestLicence(t.licences, number, k) {
      assert LastLicence(LicencesNumbered(t.licences, number)).Some? ==> found == k;
    }
  }

  lemma UsageAnsweredIs(t: Tables, number: nat)
    ensures var last := LastUsage(UsagesNumbered(t.usages, number));
            (last.Some? && Answered(t.mails, last.value.mail)) <==> UsageAnswered(t, number)
  {
    hide LastUsage, UsagesNumbered;
    var found := LatestUsageFound(t.usages, number);
    if k :| 0 <= k < |t.usages| && LatestUsage(t.usages, number, k) {
      assert LastUsage(UsagesNumbered(t.usages, number)).Some? ==> found == k;
    }
  }

  // ---------------------------------------------------------------- the mail in flight

  predicate Flies(m: Mail, types: set<ExtractType>) {
    m.status == ReplyPending && m.extractType in types
  }

  predicate NoneFlies(mails: seq<Mail>, types: set<ExtractType>) {
    forall i :: 0 <= i < |mails| ==> !Flies(mails[i], types)
  }

  predicate OnlyFlies(mails: seq<Mail>, types: set<ExtractType>, m: nat) {
    m < |mails| && Flies(mails[m], types) && forall i :: 0 <= i < |mails| && Flies(mails[i], types) ==> i == m
  }

  lemma FoundInFlight(mails: seq<Mail>, types: set<ExtractType>)
    ensures NoneFlies(mails, types) ==> FindMailOf(mails, types) == Nothing
    ensures forall m :: 0 <= m < |mails| && OnlyFlies(mails, types, m) ==> FindMailOf(mails, types) == Chosen(m)
    ensures !NoneFlies(mails, types) && (forall m :: 0 <= m < |mails| ==> !OnlyFlies(mails, types, m)) ==>
              FindMailOf(mails, types) == Failure
  {
    var found := Positions(mails, InFlight(types));
    assert forall k :: 0 <= k < |found| ==> found[k] < |mails| && InFlight(types)(mails[found[k]]);
    assert forall j, k :: 0 <= j < k < |found| ==> found[j] < found[k];
    if NoneFlies(mails, types) {
      PositionsNone(mails, InFlight(types));
    } else {
      SomeFound(mails, types);
    }
    hide Positions, NoneFlies, OnlyFlies, Flies;
    if |found| == 1 {
      OneFound(mails, types, found[0]);
    } else if |found| > 1 {
      TwoFound(mails, types, found[0], found[1]);
    }
    if found == [] {
      NoneFound(mails, types);
    }
  }

  lemma NoneFound(mails: seq<Mail>, types: set<ExtractType>)
    requires Positions(mails, InFlight(types)) == []
    ensures NoneFlies(mails, types) && forall m :: 0 <= m < |mails| ==> !OnlyFlies(mails, types, m)
  {
    forall i | 0 <= i < |mails|
      ensures !Flies(mails[i], types)
    {
      assert InFlight(types)(mails[i]) ==> i in Positions(mails, InFlight(types));
    }
  }

  lemma SomeFound(mails: seq<Mail>, types: set<ExtractType>)
    requires !NoneFlies(mails, types)
    ensures Positions(mails, InFlight(types)) != []
  {
    var i :| 0 <= i < |mails| && Flies(mails[i], types);
    assert InFlight(types)(mails[i]);
    assert i in Positions(mails, InFlight(types));
  }

  lemma OneFound(mails: seq<Mail>, types: set<ExtractType>, m: nat)
    requires Positions(mails, InFlight(types)) == [m]
    ensures OnlyFlies(mails, types, m)
    ensures forall i :: 0 <= i < |mails| && OnlyFlies(mails, types, i) ==> i == m
  {
    var found := Positions(mails, InFlight(types));
    assert found[0] == m && InFlight(types)(mails[m]);
    forall i | 0 <= i < |mails| && Flies(mails[i], types)
      ensures i == m
    {
      assert InFlight(types)(mails[i]);
      assert i in found;
    }
  }

  lemma TwoFound(mails: seq<Mail>, types: set<ExtractType>, i: nat, j: nat)
    requires i < j < |mails| && InFlight(types)(mails[i]) && InFlight(types)(mails[j])
    ensures forall m :: 0 <= m < |mails| ==> !OnlyFlies(mails, types, m)
  {
    assert Flies(mails[i], types) && Flies(mails[j], types);
  }

  // ---------------------------------------------------------------- replies

  /** What taking in a reply does: nothing, or its text goes to the one mail in flight, or it raises. */
  ghost predicate StoresReply(t: Tables, answered: bool, types: set<ExtractType>, replyType: ExtractType, text: string, r: Result) {
    && (answered || NoneFlies(t.mails, types) ==> r == Done(t))
    && (forall m :: 0 <= m < |t.mails| && !answered && OnlyFlies(t.mails, types, m) ==>
          r == Done(t.(mails := t.mails[m := t.mails[m].(extractType := replyType, status := ReplyReceived, response := Some(text))])))
    && (!answered && !NoneFlies(t.mails, types) && (forall m :: 0 <= m < |t.mails| ==> !OnlyFlies(t.mails, types, m)) ==>
          r == Raised(t))
  }

  /**
   For all tables: a licence reply is dropped when the latest file of its number has been answered or no
   licence mail is in flight; else its text is stored on the one in flight; and it raises when there are two.
   */
  lemma LicenceReplyIsStored(t: Tables, number: nat, text: string)
    ensures StoresReply(t, LicenceAnswered(t, number), {LicenceDataType, LicenceReplyType}, LicenceReplyType, text,
                        Serialized(t, LicenceReplyEmail(number, text)))
  {
    hide LastLicence, LicencesNumbered, FindMailOf, LicenceAnswered, OnlyFlies, NoneFlies;
    LicenceAnsweredIs(t, number);
    FoundInFlight(t.mails, LICENCE_TYPES);
  }

  /** The same of a usage reply, its number being that of a usage file as SPIRE was given it. */
  lemma UsageReplyIsStored(t: Tables, number: nat, text: string)
    ensures StoresReply(t, UsageAnswered(t, number), {UsageDataType}, UsageReplyType, text,
                        Serialized(t, UsageReplyEmail(number, text)))
  {
    hide LastUsage, UsagesNumbered, FindMailOf, UsageAnswered, OnlyFlies, NoneFlies;
    UsageAnsweredIs(t, number);
    FoundInFlight(t.mails, {UsageDataType});
  }
}
