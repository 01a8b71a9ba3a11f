/**
 The lock on a mail: `lock_db_for_sending_transaction`, called by any number of threads at once.

 Each call reads the row without a lock, tests what it read against the clock, then takes the row
 lock, compares the owner with the one it read, and writes itself and the time in one transaction,
 which may still fail and leave the row as it was. Other calls may take steps in between; reads see committed values only.
 */
module SendLock {
  import opened Text

  /** Seconds. */
  const LOCK_INTERVAL: real := 120.0

  datatype Row = Row(owner: Option<string>, at: real)

  datatype Phase =
    | Started
    | Saw(row: Row)
    | Passed(row: Row)
    | Holding(stamp: real)
    | Refused
    | Acquired

  datatype Call = Call(id: string, phase: Phase)

  /** A call that returned true, with the time it wrote. */
  datatype Acquisition = Acquisition(call: nat, at: real)

  datatype State = State(now: real, row: Row, lockedBy: Option<nat>, calls: seq<Call>, acquired: seq<Acquisition>)

  datatype Step =
    | Tick(seconds: real)
    | Start(id: string)
    | Refresh(call: nat)
    | Check(call: nat)
    | Select(call: nat)
    | Commit(call: nat)
    | Rollback(call: nat)

  predicate Lockable(row: Row, now: real) {
    row.owner.None? || row.owner == Some("") || now - row.at > LOCK_INTERVAL
  }

  function Moved(s: State, k: nat, phase: Phase): State
    requires k < |s.calls|
  {
    s.(calls := s.calls[k := s.calls[k].(phase := phase)])
  }

  predicate Enabled(s: State, step: Step) {
    match step
    case Tick(seconds) => seconds >= 0.0
    case Start(id) => id != ""
    case Refresh(k) => k < |s.calls| && s.calls[k].phase == Started
    case Check(k) => k < |s.calls| && s.calls[k].phase.Saw?
    case Select(k) => k < |s.calls| && s.calls[k].phase.Passed? && s.lockedBy.None?
    case Commit(k) => k < |s.calls| && s.calls[k].phase.Holding? && s.lockedBy == Some(k)
    case Rollback(k) => k < |s.calls| && s.calls[k].phase.Holding? && s.lockedBy == Some(k)
  }

  function Next(s: State, step: Step): State
    requires Enabled(s, step)
  {
    match step
    case Tick(seconds) => s.(now := s.now + seconds)
    case Start(id) => s.(calls := s.calls + [Call(id, Started)])
    case Refresh(k) => Moved(s, k, Saw(s.row))
    case Check(k) =>
      var seen := s.calls[k].phase.row;
      Moved(s, k, if Lockable(seen, s.now) then Passed(seen) else Refused)
    case Select(k) =>
      if s.row.owner != s.calls[k].phase.row.owner then Moved(s, k, Refused)
      else Moved(s, k, Holding(s.now)).(lockedBy := Some(k))
    case Commit(k) =>
      var c := s.calls[k];
      Moved(s, k, Acquired).(row := Row(Some(c.id), c.phase.stamp), lockedBy := None,
                             acquired := s.acquired + [Acquisition(k, c.phase.stamp)])
    case Rollback(k) => Moved(s, k, Refused).(lockedBy := None)
  }

  predicate Possible(s: State, steps: seq<Step>)
    decreases |steps|
  {
    steps == [] || (Enabled(s, steps[0]) && Possible(Next(s, steps[0]), steps[1..]))
  }

  function Run(s: State, steps: seq<Step>): State
    requires Possible(s, steps)
    decreases |steps|
  {
    if steps == [] then s else Run(Next(s, steps[0]), steps[1..])
  }

  /** Nobody is at work; the row is as some earlier call left it. */
  function Initial(now: real, row: Row): State {
    State(now, row, None, [], [])
  }

  // ---------------------------------------------------------------- the claim

  /** The ids of the calls a run starts. */
  function Ids(steps: seq<Step>): seq<string> {
    if steps == [] then []
    else (if steps[0].Start? then [steps[0].id] else []) + Ids(steps[1..])
  }

  predicate Apart(acquired: seq<Acquisition>) {
    forall j, k :: 0 <= j < k < |acquired| ==> acquired[k].at - acquired[j].at > LOCK_INTERVAL
  }

  predicate NotAmong(owner: Option<string>, ids: seq<string>) {
    forall k :: 0 <= k < |ids| ==> owner != Some(ids[k])
  }

  predicate Distinct(ids: seq<string>) {
    forall j, k :: 0 <= j < k < |ids| ==> ids[j] != ids[k]
  }

  predicate Named(ids: seq<string>) {
    forall k :: 0 <= k < |ids| ==> ids[k] != ""
  }

  /** The row's first owner calls again only if no other call is made, and an id recurs only if no third call is made. */
  predicate Unambiguous(owner: Option<string>, ids: seq<string>) {
    (NotAmong(owner, ids) || |ids| <= 1) && (Distinct(ids) || |ids| <= 2)
  }

  lemma UnambiguousPrefix(owner: Option<string>, a: seq<string>, b: seq<string>)
    requires Unambiguous(owner, a + b)
    ensures Unambiguous(owner, a)
  {
    var all := a + b;
    assert forall k :: 0 <= k < |a| ==> all[k] == a[k];
  }

  // ---------------------------------------------------------------- why it holds

  /** What the row can have been: the first row, or what one of the acquisitions wrote. */
  predicate Was(row: Row, first: Row, s: State) {
    row == first || exists j :: 0 <= j < |s.acquired| && s.acquired[j].call < |s.calls| && row == Written(s, s.acquired[j])
  }

  function Written(s: State, a: Acquisition): Row
    requires a.call < |s.calls|
  {
    Row(Some(s.calls[a.call].id), a.at)
  }

  function CallIds(calls: seq<Call>): seq<string> {
    seq(|calls|, k requires 0 <= k < |calls| => calls[k].id)
  }

  predicate CallInvariant(s: State, first: Row, k: nat)
    requires k < |s.calls|
  {
    var p := s.calls[k].phase;
    && s.calls[k].id != ""
    && (p.Saw? || p.Passed? ==> Was(p.row, first, s))
    && (p.Passed? ==> Lockable(p.row, s.now))
    && (p.Holding? <==> s.lockedBy == Some(k))
    && (p.Holding? ==> p.stamp <= s.now && (s.acquired != [] ==> p.stamp - s.row.at > LOCK_INTERVAL))
  }

  /** The acquisitions are of different calls, each of which has returned. */
  predicate AcquiredOnce(s: State) {
    && (forall j :: 0 <= j < |s.acquired| ==> s.acquired[j].call < |s.calls| && s.calls[s.acquired[j].call].phase.Acquired?)
    && (forall j, k :: 0 <= j < k < |s.acquired| ==> s.acquired[j].call != s.acquired[k].call)
  }

  predicate RowIsLast(s: State, first: Row)
    requires AcquiredOnce(s)
  {
    s.row == if s.acquired == [] then first else Written(s, s.acquired[|s.acquired| - 1])
  }

  predicate Invariant(s: State, first: Row) {
    && Unambiguous(first.owner, CallIds(s.calls))
    && AcquiredOnce(s)
    && RowIsLast(s, first)
    && Apart(s.acquired)
    && (s.lockedBy.Some? ==> s.lockedBy.value < |s.calls|)
    && forall k :: 0 <= k < |s.calls| ==> CallInvariant(s, first, k)
  }

  /** With at most two calls, one of which has not returned, there is at most one acquisition. */
  lemma FewAcquisitions(s: State, k: nat)
    requires AcquiredOnce(s) && k < |s.calls| && !s.calls[k].phase.Acquired? && |s.calls| <= 2
    ensures |s.acquired| < |s.calls|
  {
    assert |s.acquired| >= 2 ==> s.acquired[0].call != s.acquired[1].call;
    assert |s.acquired| >= 1 ==> s.acquired[0].call != k;
  }

  /** What a call that has not returned once saw, with the owner the row has now, is the row now. */
  lemma SameOwnerSameRow(s: State, first: Row, k: nat, row: Row)
    requires Invariant(s, first) && k < |s.calls| && !s.calls[k].phase.Acquired?
    requires Was(row, first, s) && row.owner == s.row.owner
    ensures row == s.row
  {
    hide CallInvariant;
    var ids := CallIds(s.calls);
    assert forall c :: 0 <= c < |s.calls| ==> ids[c] == s.calls[c].id;
    if |s.calls| <= 2 {
      FewAcquisitions(s, k);
    }
  }

  lemma SameIds(s: State, t: State)
    requires |s.calls| == |t.calls| && forall c :: 0 <= c < |s.calls| ==> s.calls[c].id == t.calls[c].id
    ensures CallIds(s.calls) == CallIds(t.calls)
  {
  }

  lemma TickKeeps(s: State, first: Row, seconds: real)
    requires Invariant(s, first) && seconds >= 0.0
    ensures Invariant(Next(s, Tick(seconds)), first)
  {
    var t := Next(s, Tick(seconds));
    forall k | 0 <= k < |t.calls|
      ensures CallInvariant(t, first, k)
    {
      assert CallInvariant(s, first, k);
      WasStill(s, t, first);
    }
  }

  /** Nothing that the row was is forgotten. */
  lemma WasStill(s: State, t: State, first: Row)
    requires AcquiredOnce(s) && |s.calls| <= |t.calls| && s.acquired <= t.acquired
    requires forall c :: 0 <= c < |s.calls| ==> s.calls[c].id == t.calls[c].id
    ensures forall row :: Was(row, first, s) ==> Was(row, first, t)
  {
    forall row | Was(row, first, s)
      ensures Was(row, first, t)
    {
      if row != first {
        var j :| 0 <= j < |s.acquired| && s.acquired[j].call < |s.calls| && row == Written(s, s.acquired[j]);
        assert t.acquired[j] == s.acquired[j] && row == Written(t, t.acquired[j]);
      }
    }
  }

  lemma StartKeeps(s: State, first: Row, id: string)
    requires Invariant(s, first) && id != ""
    requires Unambiguous(first.owner, CallIds(s.calls + [Call(id, Started)]))
    ensures Invariant(Next(s, Start(id)), first)
  {
    hide Unambiguous, Apart;
    var t := Next(s, Start(id));
    WasStill(s, t, first);
    hide Was;
    forall k | 0 <= k < |t.calls|
      ensures CallInvariant(t, first, k)
    {
      if k < |s.calls| { assert CallInvariant(s, first, k); }
    }
  }

  /** A step that moves one call to another phase, without acquiring. */
  lemma MoveKeeps(s: State, first: Row, k: nat, phase: Phase, lockedBy: Option<nat>)
    requires Invariant(s, first) && k < |s.calls| && !s.calls[k].phase.Acquired?
    requires phase.Saw? || phase.Passed? || phase.Refused? || phase.Holding?
    requires phase.Saw? || phase.Passed? ==> Was(phase.row, first, s)
    requires phase.Passed? ==> Lockable(phase.row, s.now)
    requires phase.Holding? ==> phase.stamp <= s.now && (s.acquired != [] ==> phase.stamp - s.row.at > LOCK_INTERVAL)
    requires if phase.Holding? then s.lockedBy.None? && lockedBy == Some(k)
             else lockedBy == if s.lockedBy == Some(k) then None else s.lockedBy
    ensures Invariant(Moved(s, k, phase).(lockedBy := lockedBy), first)
  {
    var t := Moved(s, k, phase).(lockedBy := lockedBy);
    hide Unambiguous, Apart;
    SameIds(s, t);
    WasStill(s, t, first);
    assert CallInvariant(s, first, k);
    hide Was;
    forall j | 0 <= j < |t.calls|
      ensures CallInvariant(t, first, j)
    {
      assert CallInvariant(s, first, j);
    }
  }

  lemma SelectKeeps(s: State, first: Row, k: nat)
    requires Invariant(s, first) && Enabled(s, Select(k))
    ensures Invariant(Next(s, Select(k)), first)
  {
    assert CallInvariant(s, first, k);
    var seen := s.calls[k].phase.row;
    if s.row.owner != seen.owner {
      MoveKeeps(s, first, k, Refused, s.lockedBy);
    } else {
      SameOwnerSameRow(s, first, k, seen);
      if s.acquired != [] { OwnerIsNamed(s, first); }
      MoveKeeps(s, first, k, Holding(s.now), Some(k));
    }
  }

  lemma OwnerIsNamed(s: State, first: Row)
    requires Invariant(s, first) && s.acquired != []
    ensures s.row.owner.Some? && s.row.owner != Some("")
  {
    var last := s.acquired[|s.acquired| - 1];
    assert CallInvariant(s, first, last.call);
  }

  lemma ApartPush(acquired: seq<Acquisition>, more: Acquisition)
    requires Apart(acquired)
    requires acquired != [] ==> more.at - acquired[|acquired| - 1].at > LOCK_INTERVAL
    ensures Apart(acquired + [more])
  {
    var all := acquired + [more];
    forall j, k | 0 <= j < k < |all|
      ensures all[k].at - all[j].at > LOCK_INTERVAL
    {
      if k == |acquired| && j < k - 1 {
        assert acquired[k - 1].at - acquired[j].at > LOCK_INTERVAL;
      }
    }
  }

  lemma CommitKeepsCalls(s: State, first: Row, k: nat)
    requires Invariant(s, first) && Enabled(s, Commit(k))
    ensures forall j :: 0 <= j < |s.calls| ==> CallInvariant(Next(s, Commit(k)), first, j)
  {
    var t := Next(s, Commit(k));
    hide Unambiguous, Apart;
    WasStill(s, t, first);
    hide Was;
    forall j | 0 <= j < |s.calls|
      ensures CallInvariant(t, first, j)
    {
      assert CallInvariant(s, first, j);
    }
  }

  lemma CommitKeepsAcquired(s: State, first: Row, k: nat)
    requires Invariant(s, first) && Enabled(s, Commit(k))
    ensures var t := Next(s, Commit(k));
            AcquiredOnce(t) && RowIsLast(t, first) && Apart(t.acquired)
  {
    var t := Next(s, Commit(k));
    assert CallInvariant(s, first, k);
    ApartPush(s.acquired, Acquisition(k, s.calls[k].phase.stamp));
    hide Unambiguous, CallInvariant, Apart;
  }

  lemma CommitKeeps(s: State, first: Row, k: nat)
    requires Invariant(s, first) && Enabled(s, Commit(k))
    ensures Invariant(Next(s, Commit(k)), first)
  {
    CommitKeepsCalls(s, first, k);
    CommitKeepsAcquired(s, first, k);
    SameIds(s, Next(s, Commit(k)));
    hide Unambiguous, CallInvariant, AcquiredOnce, RowIsLast, Apart, Was;
  }

  lemma RefreshKeeps(s: State, first: Row, k: nat)
    requires Invariant(s, first) && Enabled(s, Refresh(k))
    ensures Invariant(Next(s, Refresh(k)), first)
  {
    assert CallInvariant(s, first, k);
    if s.acquired != [] { assert s.row == Written(s, s.acquired[|s.acquired| - 1]); }
    MoveKeeps(s, first, k, Saw(s.row), s.lockedBy);
  }

  lemma StepKeeps(s: State, first: Row, step: Step)
    requires Invariant(s, first) && Enabled(s, step)
    requires step.Start? ==> Unambiguous(first.owner, CallIds(s.calls + [Call(step.id, Started)]))
    ensures Invariant(Next(s, step), first)
  {
    match step
    case Tick(seconds) => TickKeeps(s, first, seconds);
    case Start(id) => StartKeeps(s, first, id);
    case Refresh(k) => RefreshKeeps(s, first, k);
    case Check(k) =>
      assert CallInvariant(s, first, k);
      var seen := s.calls[k].phase.row;
      MoveKeeps(s, first, k, if Lockable(seen, s.now) then Passed(seen) else Refused, s.lockedBy);
    case Select(k) => SelectKeeps(s, first, k);
    case Commit(k) => CommitKeeps(s, first, k);
    case Rollback(k) => MoveKeeps(s, first, k, Refused, None);
  }

  lemma NextIds(s: State, step: Step, rest: seq<string>)
    requires Enabled(s, step)
    ensures CallIds(Next(s, step).calls) + rest
            == CallIds(s.calls) + ((if step.Start? then [step.id] else []) + rest)
  {
    var t := Next(s, step);
    if step.Start? {
      assert CallIds(t.calls) == CallIds(s.calls) + [step.id];
      Assoc(CallIds(s.calls), [step.id], rest);
    } else {
      assert CallIds(t.calls) == CallIds(s.calls);
      assert [] + rest == rest;
    }
  }

  lemma {:induction false} RunKeeps(s: State, first: Row, steps: seq<Step>)
    requires Invariant(s, first) && Possible(s, steps)
    requires Unambiguous(first.owner, CallIds(s.calls) + Ids(steps))
    ensures Invariant(Run(s, steps), first)
    decreases |steps|
  {
    hide Invariant, Unambiguous, Next, CallIds;
    if steps != [] {
      var rest := Ids(steps[1..]);
      NextIds(s, steps[0], rest);
      UnambiguousPrefix(first.owner, CallIds(Next(s, steps[0]).calls), rest);
      StartedCalls(s, steps[0]);
      StepKeeps(s, first, steps[0]);
      RunKeeps(Next(s, steps[0]), first, steps[1..]);
    }
  }

  lemma StartedCalls(s: State, step: Step)
    requires Enabled(s, step)
    ensures step.Start? ==> Next(s, step).calls == s.calls + [Call(step.id, Started)]
  {
  }

  /**
   In every interleaving of calls whose ids are unambiguous, any two acquisitions of a mail are
   more than `LOCK_INTERVAL` apart. So they are when ids are never reused.
   */
  lemma AcquisitionsAreApart(now: real, first: Row, steps: seq<Step>)
    requires Possible(Initial(now, first), steps)
    requires Unambiguous(first.owner, Ids(steps))
    ensures Apart(Run(Initial(now, first), steps).acquired)
  {
    assert CallIds([]) + Ids(steps) == Ids(steps);
    UnambiguousPrefix(first.owner, [], Ids(steps));
    hide Unambiguous, CallIds;
    RunKeeps(Initial(now, first), first, steps);
  }

  // ---------------------------------------------------------------- ids that are reused

  lemma OneStep(s: State, step: Step, rest: seq<Step>, t: State, steps: seq<Step>)
    requires Enabled(s, step) && Next(s, step) == t && steps == [step] + rest
    ensures steps[1..] == rest
    ensures Possible(s, steps) == Possible(t, rest)
    ensures Possible(t, rest) ==> Run(s, steps) == Run(t, rest)
  {
    assert steps[1..] == rest;
  }

  /** The calls of some ids, all of them just started. */
  function Starting(ids: seq<string>): seq<Call> {
    seq(|ids|, k requires 0 <= k < |ids| => Call(ids[k], Started))
  }

  function Starts(ids: seq<string>): seq<Step> {
    if ids == [] then [] else [Start(ids[0])] + Starts(ids[1..])
  }

  lemma {:induction false} StartAll(s: State, ids: seq<string>, rest: seq<Step>)
    requires Named(ids)
    ensures var t := s.(calls := s.calls + Starting(ids));
            && Possible(s, Starts(ids) + rest) == Possible(t, rest)
            && (Possible(t, rest) ==> Run(s, Starts(ids) + rest) == Run(t, rest))
    decreases |ids|
  {
    hide Possible, Run;
    if ids == [] {
      assert s.calls + Starting(ids) == s.calls;
      assert Starts(ids) + rest == rest;
    } else {
      var s1 := s.(calls := s.calls + [Call(ids[0], Started)]);
      assert Starts(ids) + rest == [Start(ids[0])] + (Starts(ids[1..]) + rest);
      OneStep(s, Start(ids[0]), Starts(ids[1..]) + rest, s1, Starts(ids) + rest);
      StartAll(s1, ids[1..], rest);
      assert s1.calls + Starting(ids[1..]) == s.calls + Starting(ids);
    }
  }

  /** A call by itself, from its start to its end. */
  function Alone(k: nat): seq<Step> {
    [Refresh(k), Check(k), Select(k), Commit(k)]
  }

  function AfterAlone(s: State, k: nat): State
    requires k < |s.calls|
  {
    Moved(s, k, Acquired).(row := Row(Some(s.calls[k].id), s.now), acquired := s.acquired + [Acquisition(k, s.now)])
  }

  lemma AcquireAlone(s: State, k: nat, rest: seq<Step>)
    requires k < |s.calls| && s.calls[k].phase == Started && s.lockedBy.None? && Lockable(s.row, s.now)
    ensures Possible(s, Alone(k) + rest) == Possible(AfterAlone(s, k), rest)
    ensures Possible(AfterAlone(s, k), rest) ==> Run(s, Alone(k) + rest) == Run(AfterAlone(s, k), rest)
  {
    hide Possible, Run;
    var steps := Alone(k) + rest;
    var s2 := Moved(s, k, Saw(s.row));
    var s3 := Moved(s, k, Passed(s.row));
    var s4 := Moved(s, k, Holding(s.now)).(lockedBy := Some(k));
    OneStep(s, Refresh(k), [Check(k), Select(k), Commit(k)] + rest, s2, steps);
    OneStep(s2, Check(k), [Select(k), Commit(k)] + rest, s3, steps[1..]);
    OneStep(s3, Select(k), [Commit(k)] + rest, s4, steps[1..][1..]);
    OneStep(s4, Commit(k), rest, AfterAlone(s, k), steps[1..][1..][1..]);
  }

  /** Call `k` reads, then call `j` acquires under the id the row already has, then `k` goes on. */
  function TakeOver(j: nat, k: nat): seq<Step> {
    [Refresh(k), Check(k)] + (Alone(j) + [Select(k), Commit(k)])
  }

  lemma TakeOverBreaks(s: State, j: nat, k: nat)
    requires j < |s.calls| && k < |s.calls| && j != k && s.lockedBy.None? && Lockable(s.row, s.now)
    requires s.calls[j].phase == Started && s.calls[k].phase == Started && s.row.owner == Some(s.calls[j].id)
    ensures Possible(s, TakeOver(j, k))
    ensures Run(s, TakeOver(j, k)).acquired == s.acquired + [Acquisition(j, s.now), Acquisition(k, s.now)]
  {
    hide Possible, Run;
    var steps := TakeOver(j, k);
    var s1 := Moved(s, k, Saw(s.row));
    var s2 := Moved(s, k, Passed(s.row));
    var s3 := AfterAlone(s2, j);
    OneStep(s, Refresh(k), [Check(k)] + (Alone(j) + [Select(k), Commit(k)]), s1, steps);
    OneStep(s1, Check(k), Alone(j) + [Select(k), Commit(k)], s2, steps[1..]);
    AcquireAlone(s2, j, [Select(k), Commit(k)]);
    GoOn(s3, k);
    assert s.acquired + [Acquisition(j, s.now)] + [Acquisition(k, s.now)]
           == s.acquired + [Acquisition(j, s.now), Acquisition(k, s.now)];
  }

  lemma GoOn(s: State, k: nat)
    requires k < |s.calls| && s.lockedBy.None? && s.calls[k].phase.Passed? && s.calls[k].phase.row.owner == s.row.owner
    ensures Possible(s, [Select(k), Commit(k)])
    ensures Run(s, [Select(k), Commit(k)]).acquired == s.acquired + [Acquisition(k, s.now)]
  {
    var s1 := Next(s, Select(k));
    var s2 := Next(s1, Commit(k));
    OneStep(s, Select(k), [Commit(k)], s1, [Select(k), Commit(k)]);
    OneStep(s1, Commit(k), [], s2, [Commit(k)]);
  }

  lemma IdsOfStart(id: string, rest: seq<Step>)
    ensures Ids([Start(id)] + rest) == [id] + Ids(rest)
  {
    assert ([Start(id)] + rest)[1..] == rest;
  }

  lemma {:induction false} IdsOfStarts(ids: seq<string>, rest: seq<Step>)
    requires Ids(rest) == []
    ensures Ids(Starts(ids) + rest) == ids
  {
    hide Ids;
    if ids == [] {
      assert Starts(ids) + rest == rest;
    } else {
      IdsOfStarts(ids[1..], rest);
      IdsOfStart(ids[0], Starts(ids[1..]) + rest);
      Assoc([Start(ids[0])], Starts(ids[1..]), rest);
    }
  }

  lemma {:induction false} IdsOfOthers(steps: seq<Step>)
    requires forall k :: 0 <= k < |steps| ==> !steps[k].Start?
    ensures Ids(steps) == []
  {
    if steps != [] {
      IdsOfOthers(steps[1..]);
    }
  }

  lemma NotApart(acquired: seq<Acquisition>, j: nat, k: nat, now: real)
    ensures !Apart(acquired + [Acquisition(j, now), Acquisition(k, now)])
  {
    var all := acquired + [Acquisition(j, now), Acquisition(k, now)];
    assert all[|acquired|].at == all[|acquired| + 1].at;
  }

  /** A row whose lock has run out, and a call of each id just started. */
  function AllStarted(first: Row, ids: seq<string>): State {
    State(first.at + 121.0, first, None, Starting(ids), [])
  }

  lemma FromStart(first: Row, ids: seq<string>, rest: seq<Step>)
    requires Named(ids) && (forall k :: 0 <= k < |rest| ==> !rest[k].Start?)
    requires Possible(AllStarted(first, ids), rest)
    ensures var steps := Starts(ids) + rest;
            && Possible(Initial(first.at + 121.0, first), steps) && Ids(steps) == ids
            && Run(Initial(first.at + 121.0, first), steps) == Run(AllStarted(first, ids), rest)
  {
    hide Possible, Run, Ids, Starts;
    IdsOfOthers(rest);
    IdsOfStarts(ids, rest);
    assert [] + Starting(ids) == Starting(ids);
    StartAll(Initial(first.at + 121.0, first), ids, rest);
  }

  lemma StartedCall(first: Row, ids: seq<string>, k: nat)
    requires k < |ids|
    ensures var t := AllStarted(first, ids);
            && k < |t.calls| && t.calls[k] == Call(ids[k], Started)
            && t.lockedBy.None? && Lockable(t.row, t.now) && t.acquired == [] && t.now == first.at + 121.0 && t.row == first
  {
  }

  lemma NoStarts(i: nat, j: nat, k: nat)
    ensures forall m :: 0 <= m < |TakeOver(j, k)| ==> !TakeOver(j, k)[m].Start?
    ensures forall m :: 0 <= m < |TwiceAndAThird(i, j, k)| ==> !TwiceAndAThird(i, j, k)[m].Start?
  {
  }

  /** The first owner of the row calls again, and another call read the row before. */
  lemma FirstOwnerReturns(first: Row, ids: seq<string>, j: nat, k: nat, steps: seq<Step>)
    requires Named(ids) && j < |ids| && k < |ids| && j != k && first.owner == Some(ids[j])
    requires steps == Starts(ids) + TakeOver(j, k)
    ensures Possible(Initial(first.at + 121.0, first), steps) && Ids(steps) == ids
    ensures !Apart(Run(Initial(first.at + 121.0, first), steps).acquired)
  {
    hide *;
    StartedCall(first, ids, j);
    StartedCall(first, ids, k);
    NoStarts(0, j, k);
    var t := AllStarted(first, ids);
    TakeOverBreaks(t, j, k);
    FromStart(first, ids, TakeOver(j, k));
    NotApart(t.acquired, j, k, t.now);
  }

  /** An id acquires twice, and a third call read the row after the first time. */
  function TwiceAndAThird(i: nat, j: nat, k: nat): seq<Step> {
    Alone(i) + ([Tick(121.0)] + TakeOver(j, k))
  }

  lemma TwiceBreaks(t: State, i: nat, j: nat, k: nat)
    requires i < |t.calls| && j < |t.calls| && k < |t.calls| && i != j && i != k && j != k
    requires t.calls[i] == t.calls[j] && t.calls[i].phase == Started && t.calls[k].phase == Started
    requires t.lockedBy.None? && Lockable(t.row, t.now) && t.acquired == []
    ensures Possible(t, TwiceAndAThird(i, j, k))
    ensures Run(t, TwiceAndAThird(i, j, k)).acquired
            == [Acquisition(i, t.now)] + [Acquisition(j, t.now + 121.0), Acquisition(k, t.now + 121.0)]
  {
    hide Possible, Run, TakeOver, Alone;
    var t1 := AfterAlone(t, i);
    var t2 := t1.(now := t1.now + 121.0);
    AcquireAlone(t, i, [Tick(121.0)] + TakeOver(j, k));
    OneStep(t1, Tick(121.0), TakeOver(j, k), t2, [Tick(121.0)] + TakeOver(j, k));
    TakeOverBreaks(t2, j, k);
    assert t2.acquired == [Acquisition(i, t.now)];
  }

  lemma IdReturns(first: Row, ids: seq<string>, i: nat, j: nat, k: nat, steps: seq<Step>)
    requires Named(ids) && i < |ids| && j < |ids| && k < |ids| && i != j && i != k && j != k && ids[i] == ids[j]
    requires steps == Starts(ids) + TwiceAndAThird(i, j, k)
    ensures Possible(Initial(first.at + 121.0, first), steps) && Ids(steps) == ids
    ensures Run(Initial(first.at + 121.0, first), steps).acquired
            == [Acquisition(i, first.at + 121.0), Acquisition(j, first.at + 242.0), Acquisition(k, first.at + 242.0)]
    ensures !Apart(Run(Initial(first.at + 121.0, first), steps).acquired)
  {
    hide *;
    StartedCall(first, ids, i);
    StartedCall(first, ids, j);
    StartedCall(first, ids, k);
    NoStarts(i, j, k);
    var t := AllStarted(first, ids);
    TwiceBreaks(t, i, j, k);
    FromStart(first, ids, TwiceAndAThird(i, j, k));
    NotApart([Acquisition(i, t.now)], j, k, t.now + 121.0);
  }

  /** In every run that starts calls of these ids on this row, the acquisitions are apart. */
  ghost predicate AlwaysApart(first: Row, ids: seq<string>) {
    forall now: real, steps: seq<Step> :: Possible(Initial(now, first), steps) && Ids(steps) == ids ==>
      Apart(Run(Initial(now, first), steps).acquired)
  }

  /**
   The lock keeps its interval exactly for unambiguous ids: in every run that starts calls of the
   given ids, on a mail with the given row, any two acquisitions are more than `LOCK_INTERVAL`
   apart, if and only if the row's owner is not among them or there is one call, and no id
   occurs twice or there are at most two calls.
   */
  lemma LockHoldsExactlyWhen(first: Row, ids: seq<string>)
    requires Named(ids)
    ensures AlwaysApart(first, ids) <==> Unambiguous(first.owner, ids)
  {
    hide Possible, Run, Apart, Ids, Initial, Starts, TakeOver, TwiceAndAThird, Named;
    if Unambiguous(first.owner, ids) {
      forall now: real, steps: seq<Step> | Possible(Initial(now, first), steps) && Ids(steps) == ids
        ensures Apart(Run(Initial(now, first), steps).acquired)
      {
        AcquisitionsAreApart(now, first, steps);
      }
    } else {
      AmbiguousBreaks(first, ids);
    }
  }

  lemma AmbiguousBreaks(first: Row, ids: seq<string>)
    requires Named(ids) && !Unambiguous(first.owner, ids)
    ensures exists steps: seq<Step> :: Possible(Initial(first.at + 121.0, first), steps) && Ids(steps) == ids
                                       && !Apart(Run(Initial(first.at + 121.0, first), steps).acquired)
  {
    hide Possible, Run, Ids, Initial, Starts, TakeOver, TwiceAndAThird, Named;
    if !NotAmong(first.owner, ids) && |ids| > 1 {
      var j: nat :| j < |ids| && first.owner == Some(ids[j]);
      var k := if j == 0 then 1 else 0;
      FirstOwnerReturns(first, ids, j, k, Starts(ids) + TakeOver(j, k));
    } else {
      var i: nat, j: nat :| i < j < |ids| && ids[i] == ids[j];
      var k := if i > 0 then 0 else if j > 1 then 1 else 2;
      IdReturns(first, ids, i, j, k, Starts(ids) + TwiceAndAThird(i, j, k));
    }
  }

  /**
   The ids are those of threads, and a thread has the same id in every call it makes. Once its
   lock has run out, another thread may read the row, and then find the same owner there although
   the lock was taken anew in between.
   */
  lemma ReusedIdBreaksTheLock(steps: seq<Step>)
    requires steps == Starts(["a", "b", "a"]) + TwiceAndAThird(0, 2, 1)
    ensures Possible(Initial(121.0, Row(None, 0.0)), steps)
    ensures Run(Initial(121.0, Row(None, 0.0)), steps).acquired
            == [Acquisition(0, 121.0), Acquisition(2, 242.0), Acquisition(1, 242.0)]
    ensures !AlwaysApart(Row(None, 0.0), ["a", "b", "a"])
  {
    IdReturns(Row(None, 0.0), ["a", "b", "a"], 0, 2, 1, steps);
    assert ["a", "b", "a"][0] == ["a", "b", "a"][2];
    hide Possible, Run, Starts, TwiceAndAThird, AlwaysApart;
    LockHoldsExactlyWhen(Row(None, 0.0), ["a", "b", "a"]);
  }

  // ---------------------------------------------------------------- one call on its own

  class MailRow {
    var processedBy: Option<string>
    var processingAt: real

    function Value(): Row
      reads this
    {
      Row(processedBy, processingAt)
    }

    constructor (row: Row)
      ensures Value() == row
    {
      processedBy, processingAt := row.owner, row.at;
    }

    /**
     The call as one thread runs it alone: it reads the clock once for the test, at `now`, and once
     for the time it writes, `waited` seconds later.
     */
    method LockDbForSendingTransaction(id: string, now: real, waited: real) returns (locked: bool)
      requires id != "" && waited >= 0.0
      modifies this
      ensures locked == Lockable(old(Value()), now)
      ensures Value() == if locked then Row(Some(id), now + waited) else old(Value())
      ensures var steps := [Start(id), Refresh(0), Check(0)] + if locked then [Tick(waited), Select(0), Commit(0)] else [];
              && Possible(Initial(now, old(Value())), steps)
              && Run(Initial(now, old(Value())), steps).row == Value()
              && (Run(Initial(now, old(Value())), steps).acquired != [] <==> locked)
    {
      ghost var before := Value();
      AloneRuns(Value(), id, now, waited);
      var previous := processedBy;
      locked := false;
      if previous == None || previous == Some("") || now - processingAt > LOCK_INTERVAL {
        if processedBy != previous {
          return;
        }
        processedBy := Some(id);
        processingAt := now + waited;
        locked := true;
      }
    }
  }

  lemma AloneRuns(row: Row, id: string, now: real, waited: real)
    requires id != "" && waited >= 0.0
    ensures var locked := Lockable(row, now);
            var steps := [Start(id), Refresh(0), Check(0)] + if locked then [Tick(waited), Select(0), Commit(0)] else [];
            && Possible(Initial(now, row), steps)
            && Run(Initial(now, row), steps).row == (if locked then Row(Some(id), now + waited) else row)
            && (Run(Initial(now, row), steps).acquired != [] <==> locked)
  {
    hide Run, Possible;
    var s := Initial(now, row);
    var tail: seq<Step> := if Lockable(row, now) then [Tick(waited), Select(0), Commit(0)] else [];
    var steps := [Start(id), Refresh(0), Check(0)] + tail;
    var s1 := s.(calls := [Call(id, Started)]);
    var s2 := s.(calls := [Call(id, Saw(row))]);
    var s3 := Next(s2, Check(0));
    OneStep(s, Start(id), [Refresh(0), Check(0)] + tail, s1, steps);
    OneStep(s1, Refresh(0), [Check(0)] + tail, s2, steps[1..]);
    OneStep(s2, Check(0), tail, s3, steps[1..][1..]);
    if Lockable(row, now) {
      var s4 := s3.(now := now + waited);
      OneStep(s3, Tick(waited), [Select(0), Commit(0)], s4, tail);
      var s5 := Next(s4, Select(0));
      OneStep(s4, Select(0), [Commit(0)], s5, [Select(0), Commit(0)]);
      OneStep(s5, Commit(0), [], Next(s5, Commit(0)), [Commit(0)]);
      NothingMore(Next(s5, Commit(0)));
    } else {
      NothingMore(s3);
    }
  }

  lemma NothingMore(s: State)
    ensures Possible(s, []) && Run(s, []) == s
  {
  }
}
