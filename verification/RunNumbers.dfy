/**
 Run numbers: `new_hmrc_run_number` and `new_spire_run_number`, and what the numbers of a whole
 series of files come to.
 */
module RunNumbers {
  import opened Text
  import opened MailTables

  const LIMIT: nat := 100000
  const LAST_NUMBER: nat := 99999

  function After(number: nat): nat {
    if number != LAST_NUMBER then number + 1 else 0
  }

  /** `new_hmrc_run_number`: the number of a licence file that its sender numbered `given`. */
  function NewHmrcRunNumber(rows: seq<LicenceRow>, given: nat): nat {
    match LastLicence(rows)
    case None => given
    case Some(last) => if last.sourceRunNumber != Some(given % LIMIT) then After(last.hmrcRunNumber) else last.hmrcRunNumber
  }

  /** `new_spire_run_number`: the number of a usage file that HMRC numbered `given`. */
  function NewSpireRunNumber(rows: seq<UsageRow>, given: nat): nat {
    match LastUsage(rows)
    case None => given
    case Some(last) => if last.hmrcRunNumber != given % LIMIT then After(last.spireRunNumber) else last.spireRunNumber
  }

  // ---------------------------------------------------------------- a series of files

  /** How often a file is numbered differently from the one before it. */
  function Changes(numbers: seq<nat>): nat {
    var n := |numbers|;
    if n < 2 then 0
    else Changes(numbers[..n - 1]) + if numbers[n - 1] != numbers[n - 2] then 1 else 0
  }

  predicate Small(numbers: seq<nat>) {
    forall k :: 0 <= k < |numbers| ==> numbers[k] < LIMIT
  }

  /** The table after SPIRE's licence files numbered `given`, each of them a new mail after `first`'s. */
  function LicenceSeries(first: LicenceRow, given: seq<nat>): (rows: seq<LicenceRow>)
    ensures |rows| == 1 + |given|
    ensures forall k :: 0 <= k < |rows| ==> rows[k].mail == first.mail + k
    ensures |given| > 0 ==> rows[|given|].sourceRunNumber == Some(given[|given| - 1])
    ensures given == [] ==> rows == [first]
  {
    if given == [] then [first]
    else
      var n := |given| - 1;
      var rows := LicenceSeries(first, given[..n]);
      rows + [LicenceRow(NewHmrcRunNumber(rows, given[n]), Some(given[n]), Spire, first.mail + n + 1, {})]
  }

  /** The table after HMRC's usage files numbered `given`. */
  function UsageSeries(first: UsageRow, given: seq<nat>): (rows: seq<UsageRow>)
    ensures |rows| == 1 + |given|
    ensures forall k :: 0 <= k < |rows| ==> rows[k].mail == first.mail + k
    ensures |given| > 0 ==> rows[|given|].hmrcRunNumber == given[|given| - 1]
    ensures given == [] ==> rows == [first]
  {
    if given == [] then [first]
    else
      var n := |given| - 1;
      var rows := UsageSeries(first, given[..n]);
      rows + [UsageRow(NewSpireRunNumber(rows, given[n]), given[n], first.mail + n + 1, None, None, false)]
  }

  lemma OneFurther(first: nat, steps: nat)
    ensures After((first + steps) % LIMIT) == (first + steps + 1) % LIMIT
  {
  }

  lemma LastInOrder(rows: seq<LicenceRow>, start: nat)
    requires rows != [] && forall k :: 0 <= k < |rows| ==> rows[k].mail == start + k
    ensures LastLicence(rows) == Some(rows[|rows| - 1])
  {
    assert rows[|rows| - 1].mail == start + (|rows| - 1);
  }

  lemma LastUsageInOrder(rows: seq<UsageRow>, start: nat)
    requires rows != [] && forall k :: 0 <= k < |rows| ==> rows[k].mail == start + k
    ensures LastUsage(rows) == Some(rows[|rows| - 1])
  {
    assert rows[|rows| - 1].mail == start + (|rows| - 1);
  }

  lemma ChangesPush(source: nat, given: seq<nat>)
    requires given != []
    ensures var n := |given| - 1;
            Changes([source] + given)
            == Changes([source] + given[..n])
               + if given[n] != (if n == 0 then source else given[n - 1]) then 1 else 0
  {
    hide Changes;
    var n := |given| - 1;
    var all := [source] + given;
    assert all[..n + 1] == [source] + given[..n];
    if n == 0 {
      assert all[n] == source;
    } else {
      assert all[n] == given[n - 1];
    }
    ChangesLast(all, n);
  }

  lemma ChangesLast(numbers: seq<nat>, n: nat)
    requires |numbers| == n + 2
    ensures Changes(numbers) == Changes(numbers[..n + 1]) + if numbers[n + 1] != numbers[n] then 1 else 0
  {
  }

  lemma SmallModulo(given: nat)
    requires given < LIMIT
    ensures given % LIMIT == given
  {
  }

  lemma NextNumber(previous: nat, number: nat, given: nat, first: nat, steps: nat)
    requires number == (first + steps) % LIMIT && given < LIMIT
    ensures (if previous != given % LIMIT then After(number) else number)
            == (first + (steps + if given != previous then 1 else 0)) % LIMIT
  {
    SmallModulo(given);
    OneFurther(first, steps);
  }

  lemma SmallPrefix(source: nat, given: seq<nat>)
    requires given != [] && Small([source] + given)
    ensures Small([source] + given[..|given| - 1]) && given[|given| - 1] < LIMIT
  {
    var all := [source] + given;
    assert all[|given|] == given[|given| - 1] && all[|given|] < LIMIT;
    var some := [source] + given[..|given| - 1];
    forall k | 0 <= k < |some|
      ensures some[k] < LIMIT
    {
      assert some[k] == all[k];
    }
  }

  lemma AppendedLicence(first: LicenceRow, source: nat, given: seq<nat>, n: nat)
    requires first.sourceRunNumber == Some(source) && |given| == n + 1
    ensures LastLicence(LicenceSeries(first, given[..n])) == Some(LicenceSeries(first, given[..n])[n])
    ensures LicenceSeries(first, given[..n])[n].sourceRunNumber == Some(if n == 0 then source else given[n - 1])
    ensures LicenceSeries(first, given)[n + 1].hmrcRunNumber == NewHmrcRunNumber(LicenceSeries(first, given[..n]), given[n])
  {
    var before := LicenceSeries(first, given[..n]);
    LastInOrder(before, first.mail);
  }

  lemma AppendedUsage(first: UsageRow, given: seq<nat>, n: nat)
    requires |given| == n + 1
    ensures LastUsage(UsageSeries(first, given[..n])) == Some(UsageSeries(first, given[..n])[n])
    ensures UsageSeries(first, given[..n])[n].hmrcRunNumber == (if n == 0 then first.hmrcRunNumber else given[n - 1])
    ensures UsageSeries(first, given)[n + 1].spireRunNumber == NewSpireRunNumber(UsageSeries(first, given[..n]), given[n])
  {
    var before := UsageSeries(first, given[..n]);
    LastUsageInOrder(before, first.mail);
  }

  lemma NoChanges(source: nat)
    ensures Changes([source] + []) == 0
  {
  }

  /** The last licence file's number counts the changes of the source's number so far, modulo 100000. */
  lemma {:induction false} HmrcNumberCountsChanges(first: LicenceRow, source: nat, given: seq<nat>)
    requires first.sourceRunNumber == Some(source) && first.hmrcRunNumber < LIMIT
    requires Small([source] + given)
    ensures LicenceSeries(first, given)[|given|].hmrcRunNumber == (first.hmrcRunNumber + Changes([source] + given)) % LIMIT
    decreases |given|
  {
    hide Changes, LicenceSeries, After, Small, LastLicence;
    if given == [] {
      NoChanges(source);
      SmallModulo(first.hmrcRunNumber);
    } else {
      var n := |given| - 1;
      SmallPrefix(source, given);
      HmrcNumberCountsChanges(first, source, given[..n]);
      AppendedLicence(first, source, given, n);
      ChangesPush(source, given);
      NextNumber(if n == 0 then source else given[n - 1], LicenceSeries(first, given[..n])[n].hmrcRunNumber, given[n],
                 first.hmrcRunNumber, Changes([source] + given[..n]));
    }
  }

  /** The same of the usage files that SPIRE is sent. */
  lemma {:induction false} SpireNumberCountsChanges(first: UsageRow, given: seq<nat>)
    requires first.spireRunNumber < LIMIT
    requires Small([first.hmrcRunNumber] + given)
    ensures UsageSeries(first, given)[|given|].spireRunNumber
            == (first.spireRunNumber + Changes([first.hmrcRunNumber] + given)) % LIMIT
    decreases |given|
  {
    hide Changes, UsageSeries, After, Small, LastUsage;
    var source := first.hmrcRunNumber;
    if given == [] {
      NoChanges(source);
      SmallModulo(first.spireRunNumber);
    } else {
      var n := |given| - 1;
      SmallPrefix(source, given);
      SpireNumberCountsChanges(first, given[..n]);
      AppendedUsage(first, given, n);
      ChangesPush(source, given);
      NextNumber(if n == 0 then source else given[n - 1], UsageSeries(first, given[..n])[n].spireRunNumber, given[n],
                 first.spireRunNumber, Changes([source] + given[..n]));
    }
  }

  /**
   A file sent again under the number it had before keeps its HMRC number exactly when that number
   is below 100000: the table keeps the number as given and the comparison reduces the new one.
   */
  lemma RepeatKeepsNumberExactlyWhenSmall(rows: seq<LicenceRow>, given: nat)
    requires LastLicence(rows).Some? && LastLicence(rows).value.sourceRunNumber == Some(given)
    ensures NewHmrcRunNumber(rows, given) == LastLicence(rows).value.hmrcRunNumber <==> given < LIMIT
  {
    if given >= LIMIT {
      assert given % LIMIT < LIMIT;
    }
  }
}
