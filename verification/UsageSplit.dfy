/**
 Splitting a usage file by licence owner (mail/libraries/usage_data_decomposition.py).

 The loop recognises records by substring tests on the stripped line. `Step` is one turn
 of that loop, with the exceptions it can raise; `SplitEdiDataById` is the loop itself.
 */
module UsageSplit {
  import opened Text

  const LICENCE_USAGE := "licenceUsage"
  const END := "end"
  const LINE := "line"
  const FILE_HEADER := "fileHeader"
  const FILE_TRAILER := "fileTrailer"
  const END_LICENCE_USAGE := "end\\licenceUsage"

  /** The data lines of one block: the file's lines without their leading number. */
  type Block = seq<string>

  datatype Owner = Nobody | Lite | Spire

  /** A row of the TransactionMapping table. */
  datatype TransactionRow = TransactionRow(line: Option<nat>, usage: nat, licence: string, transaction: string)

  datatype SplitState = SplitState(
    spire: seq<Block>, lite: seq<Block>, block: Block,
    owner: Owner, licence: string, transaction: string,
    rows: set<TransactionRow>)

  /** Where the loop stands: still reading, left by `break`, or left by an exception (rows written so far remain). */
  datatype Progress =
    | Reading(state: SplitState)
    | Finished(state: SplitState)
    | Raised(rows: set<TransactionRow>)

  function Start(rows: set<TransactionRow>): SplitState {
    SplitState([], [], [], Nobody, "", "", rows)
  }

  function OwnerOf(licence: string, liteLicences: set<string>): Owner {
    if licence in liteLicences then Lite else Spire
  }

  predicate StartsLicence(line: string) {
    Contains(line, LICENCE_USAGE) && !Contains(line, END)
  }

  predicate EndsLicence(line: string) {
    Contains(line, LICENCE_USAGE) && Contains(line, END)
  }

  predicate IsGoodsLine(dataLine: string) {
    Contains(dataLine, LINE) && !Contains(dataLine, END)
  }

  predicate Mapped(rows: set<TransactionRow>, transaction: string) {
    exists row | row in rows :: row.transaction == transaction
  }

  /** `int(data_line.split("\\")[1])`, and the column takes no negative number. */
  function GoodsLineNumber(dataLine: string): Option<nat> {
    var tokens := Split(dataLine, FIELD_SEP);
    if |tokens| < 2 then None
    else
      match ParseInt(tokens[1])
      case Some(n) => if n < 0 then None else Some(n)
      case None => None
  }

  /** The row for a LITE block whose end has been reached with nothing mapped yet. */
  function RowsAtEnd(line: string, s: SplitState, usage: nat): set<TransactionRow> {
    if s.owner == Lite && !Mapped(s.rows, s.transaction) && Contains(line, END_LICENCE_USAGE)
    then s.rows + {TransactionRow(None, usage, s.licence, s.transaction)}
    else s.rows
  }

  /** The TransactionMapping part of one turn; `None` is an exception in `int(...)`. */
  function MapTransaction(line: string, dataLine: string, s: SplitState, usage: Option<nat>): Option<set<TransactionRow>> {
    if usage.None? then Some(s.rows)
    else if s.owner == Lite && IsGoodsLine(dataLine) then
      match GoodsLineNumber(dataLine)
      case None => None
      case Some(n) =>
        var row := TransactionRow(Some(n), usage.value, s.licence, s.transaction);
        Some(RowsAtEnd(line, s.(rows := s.rows + {row}), usage.value))
    else Some(RowsAtEnd(line, s, usage.value))
  }

  /** A licence header names the licence and transaction; `None` is `IndexError`. */
  function EnterLicence(line: string, s: SplitState, liteLicences: set<string>): Option<SplitState> {
    if !StartsLicence(line) then Some(s)
    else
      var tokens := Split(line, FIELD_SEP);
      if |tokens| < 5 then None
      else Some(s.(licence := tokens[4], owner := OwnerOf(tokens[4], liteLicences), transaction := tokens[2]))
  }

  /** Closing the current block: after the header line, and after a licence's end line. */
  function CloseHeader(line: string, s: SplitState): SplitState {
    if Contains(line, FILE_HEADER) then s.(spire := s.spire + [s.block], block := []) else s
  }

  function CloseLicence(line: string, s: SplitState): SplitState {
    if !EndsLicence(line) then s
    else if s.owner == Spire then s.(spire := s.spire + [s.block], block := [])
    else s.(lite := s.lite + [s.block], block := [])
  }

  /** One turn of the loop. */
  function Step(raw: string, liteLicences: set<string>, usage: Option<nat>, s: SplitState): Progress {
    var line := Strip(raw);
    match EnterLicence(line, s, liteLicences)
    case None => Raised(s.rows)
    case Some(s1) =>
      match AfterFirst(line, FIELD_SEP)
      case None => Raised(s.rows)
      case Some(dataLine) =>
        var s2 := s1.(block := s1.block + [dataLine]);
        match MapTransaction(line, dataLine, s2, usage)
        case None => Raised(s.rows)
        case Some(rows) =>
          var s3 := s2.(rows := rows);
          if Contains(line, FILE_TRAILER) then Finished(s3.(spire := s3.spire + [s3.block]))
          else Reading(CloseLicence(line, CloseHeader(line, s3)))
  }

  function Run(lines: seq<string>, liteLicences: set<string>, usage: Option<nat>, s: SplitState): Progress {
    if lines == [] then Reading(s)
    else
      match Step(lines[0], liteLicences, usage, s)
      case Reading(s') => Run(lines[1..], liteLicences, usage, s')
      case other => other
  }

  datatype SplitResult = Blocks(spire: seq<Block>, lite: seq<Block>) | SplitError

  function ResultOf(p: Progress): SplitResult {
    match p
    case Reading(s) => Blocks(s.spire, s.lite)
    case Finished(s) => Blocks(s.spire, s.lite)
    case Raised(_) => SplitError
  }

  function RowsOf(p: Progress): set<TransactionRow> {
    match p
    case Reading(s) => s.rows
    case Finished(s) => s.rows
    case Raised(rows) => rows
  }

  function SplitFile(data: string, liteLicences: set<string>, usage: Option<nat>, rows: set<TransactionRow>): Progress {
    Run(Split(data, LINE_SEP), liteLicences, usage, Start(rows))
  }

  /** The database tables the split reads and writes. */
  class UsageTables {
    var liteLicences: set<string>
    var mappings: set<TransactionRow>

    constructor (licences: set<string>)
      ensures liteLicences == licences && mappings == {}
    {
      liteLicences := licences;
      mappings := {};
    }

    /** `split_edi_data_by_id`. */
    method SplitEdiDataById(data: string, usage: Option<nat>) returns (r: SplitResult)
      modifies this`mappings
      ensures r == ResultOf(SplitFile(data, liteLicences, usage, old(mappings)))
      ensures mappings == RowsOf(SplitFile(data, liteLicences, usage, old(mappings)))
    {
      var lines := Split(data, LINE_SEP);
      var spire: seq<Block>, lite: seq<Block>, block: Block := [], [], [];
      var owner, licence, transaction := Nobody, "", "";
      ghost var whole := SplitFile(data, liteLicences, usage, mappings);
      for i := 0 to |lines|
        invariant Run(lines[i..], liteLicences, usage,
                      SplitState(spire, lite, block, owner, licence, transaction, mappings)) == whole
      {
        assert lines[i..][1..] == lines[i + 1..];
        ghost var before := SplitState(spire, lite, block, owner, licence, transaction, mappings);
        var line := Strip(lines[i]);
        if StartsLicence(line) {
          var tokens := Split(line, FIELD_SEP);
          if |tokens| < 5 {
            return SplitError;
          }
          licence := tokens[4];
          owner := OwnerOf(licence, liteLicences);
          transaction := tokens[2];
        }
        var rest := AfterFirst(line, FIELD_SEP);
        if rest.None? {
          return SplitError;
        }
        var dataLine := rest.value;
        block := block + [dataLine];
        if usage.Some? {
          if owner == Lite && IsGoodsLine(dataLine) {
            var number := GoodsLineNumber(dataLine);
            if number.None? {
              return SplitError;
            }
            mappings := mappings + {TransactionRow(number, usage.value, licence, transaction)};
          }
          if owner == Lite && !Mapped(mappings, transaction) && Contains(line, END_LICENCE_USAGE) {
            mappings := mappings + {TransactionRow(None, usage.value, licence, transaction)};
          }
        }
        if Contains(line, FILE_TRAILER) {
          spire := spire + [block];
          return Blocks(spire, lite);
        }
        if Contains(line, FILE_HEADER) {
          spire := spire + [block];
          block := [];
        }
        if EndsLicence(line) {
          if owner == Spire {
            spire := spire + [block];
          } else {
            lite := lite + [block];
          }
          block := [];
        }
      }
      return Blocks(spire, lite);
    }
  }

  // ---------------------------------------------------------------- facts about every input

  lemma {:induction false} RunAppend(a: seq<string>, b: seq<string>, liteLicences: set<string>, usage: Option<nat>, s: SplitState)
    ensures Run(a + b, liteLicences, usage, s) ==
            match Run(a, liteLicences, usage, s)
            case Reading(s') => Run(b, liteLicences, usage, s')
            case other => other
  {
    if a == [] {
      assert a + b == b;
    } else {
      assert (a + b)[1..] == a[1..] + b;
      match Step(a[0], liteLicences, usage, s) {
        case Reading(s') => RunAppend(a[1..], b, liteLicences, usage, s');
        case _ =>
      }
    }
  }

  lemma {:induction false} RunKeepsRows(lines: seq<string>, liteLicences: set<string>, usage: Option<nat>, s: SplitState)
    ensures s.rows <= RowsOf(Run(lines, liteLicences, usage, s))
  {
    if lines != [] {
      match Step(lines[0], liteLicences, usage, s) {
        case Reading(s') => RunKeepsRows(lines[1..], liteLicences, usage, s');
        case _ =>
      }
    }
  }

  /** The same progress with another row table. */
  function WithRows(p: Progress, rows: set<TransactionRow>): Progress {
    match p
    case Reading(s) => Reading(s.(rows := rows))
    case Finished(s) => Finished(s.(rows := rows))
    case Raised(_) => Raised(rows)
  }

  /** A turn replayed over a table that already holds the turn's rows writes nothing. */
  lemma StepReplay(raw: string, liteLicences: set<string>, usage: Option<nat>, s: SplitState, rows: set<TransactionRow>)
    requires RowsOf(Step(raw, liteLicences, usage, s)) <= rows
    ensures Step(raw, liteLicences, usage, s.(rows := rows)) == WithRows(Step(raw, liteLicences, usage, s), rows)
  {
    var line := Strip(raw);
    var entered := EnterLicence(line, s, liteLicences);
    if entered.Some? && AfterFirst(line, FIELD_SEP).Some? {
      var dataLine := AfterFirst(line, FIELD_SEP).value;
      var s2 := entered.value.(block := entered.value.block + [dataLine]);
      MapReplay(line, dataLine, s2, usage, rows);
    }
  }

  lemma MapReplay(line: string, dataLine: string, s: SplitState, usage: Option<nat>, rows: set<TransactionRow>)
    requires MapTransaction(line, dataLine, s, usage).Some? ==> MapTransaction(line, dataLine, s, usage).value <= rows
    ensures MapTransaction(line, dataLine, s.(rows := rows), usage) ==
            if MapTransaction(line, dataLine, s, usage).None? then None else Some(rows)
  {
    if usage.Some? && MapTransaction(line, dataLine, s, usage).Some? {
      if s.owner == Lite && IsGoodsLine(dataLine) {
        var row := TransactionRow(GoodsLineNumber(dataLine), usage.value, s.licence, s.transaction);
        var s1 := s.(rows := s.rows + {row});
        assert row in RowsAtEnd(line, s1, usage.value);
        assert rows + {row} == rows;
        EndReplay(line, s1, usage.value, rows);
      } else {
        EndReplay(line, s, usage.value, rows);
      }
    }
  }

  lemma EndReplay(line: string, s: SplitState, usage: nat, rows: set<TransactionRow>)
    requires RowsAtEnd(line, s, usage) <= rows
    ensures RowsAtEnd(line, s.(rows := rows), usage) == rows
  {
    if Mapped(s.rows, s.transaction) {
      var row :| row in s.rows && row.transaction == s.transaction;
      assert row in rows;
    } else if s.owner == Lite && Contains(line, END_LICENCE_USAGE) {
      assert TransactionRow(None, usage, s.licence, s.transaction) in rows;
    }
  }

  lemma {:induction false} RunReplay(lines: seq<string>, liteLicences: set<string>, usage: Option<nat>, s: SplitState, rows: set<TransactionRow>)
    requires RowsOf(Run(lines, liteLicences, usage, s)) <= rows
    ensures Run(lines, liteLicences, usage, s.(rows := rows)) == WithRows(Run(lines, liteLicences, usage, s), rows)
  {
    if lines != [] {
      var p := Step(lines[0], liteLicences, usage, s);
      match p {
        case Reading(s') =>
          RunKeepsRows(lines[1..], liteLicences, usage, s');
          StepReplay(lines[0], liteLicences, usage, s, rows);
          RunReplay(lines[1..], liteLicences, usage, s', rows);
        case _ =>
          StepReplay(lines[0], liteLicences, usage, s, rows);
      }
    }
  }

  /**
   Retrying is harmless, for every text: a second split of the same file for the same usage
   data, over the rows the first one left (even by failing part way), adds no row and has the
   same result.
   */
  lemma RetryAddsNoRow(data: string, liteLicences: set<string>, usage: Option<nat>, rows: set<TransactionRow>)
    ensures var first := SplitFile(data, liteLicences, usage, rows);
            var second := SplitFile(data, liteLicences, usage, RowsOf(first));
            RowsOf(second) == RowsOf(first) && ResultOf(second) == ResultOf(first)
  {
    var first := SplitFile(data, liteLicences, usage, rows);
    RunReplay(Split(data, LINE_SEP), liteLicences, usage, Start(rows), RowsOf(first));
    assert Start(rows).(rows := RowsOf(first)) == Start(RowsOf(first));
  }

  function Flatten(blocks: seq<Block>): seq<string> {
    if blocks == [] then [] else blocks[0] + Flatten(blocks[1..])
  }

  lemma {:induction false} FlattenAppend(a: seq<Block>, b: seq<Block>)
    ensures Flatten(a + b) == Flatten(a) + Flatten(b)
  {
    if a == [] {
      assert a + b == b;
    } else {
      assert (a + b)[1..] == a[1..] + b;
      FlattenAppend(a[1..], b);
    }
  }

  /** The data lines of the file up to and including the first trailer line. */
  function DataLines(lines: seq<string>): seq<string> {
    if lines == [] then []
    else
      var line := Strip(lines[0]);
      var own := match AfterFirst(line, FIELD_SEP) case None => [] case Some(d) => [d];
      if Contains(line, FILE_TRAILER) then own else own + DataLines(lines[1..])
  }

  /** How often a line occurs. */
  function Times(lines: seq<string>, x: string): nat {
    if lines == [] then 0 else (if lines[0] == x then 1 else 0) + Times(lines[1..], x)
  }

  lemma {:induction false} TimesAppend(a: seq<string>, b: seq<string>, x: string)
    ensures Times(a + b, x) == Times(a, x) + Times(b, x)
  {
    if a == [] {
      assert a + b == b;
    } else {
      assert (a + b)[1..] == a[1..] + b;
      TimesAppend(a[1..], b, x);
    }
  }

  /** Occurrences of a line on the two sides and in the block being read. */
  function Held(s: SplitState, x: string): nat {
    Times(Flatten(s.spire), x) + Times(Flatten(s.lite), x) + Times(s.block, x)
  }

  lemma TimesFlattenPush(blocks: seq<Block>, b: Block, x: string)
    ensures Times(Flatten(blocks + [b]), x) == Times(Flatten(blocks), x) + Times(b, x)
  {
    FlattenAppend(blocks, [b]);
    assert [b][1..] == [];
    assert Flatten([b]) == b + [] == b;
    TimesAppend(Flatten(blocks), b, x);
  }

  lemma HeldAfterClose(line: string, s: SplitState, x: string)
    ensures Held(CloseHeader(line, s), x) == Held(s, x)
    ensures Held(CloseLicence(line, s), x) == Held(s, x)
  {
    hide Contains, Flatten;
    TimesFlattenPush(s.spire, s.block, x);
    TimesFlattenPush(s.lite, s.block, x);
  }

  lemma StepConserves(raw: string, liteLicences: set<string>, usage: Option<nat>, s: SplitState, x: string)
    ensures var p := Step(raw, liteLicences, usage, s);
            var d := AfterFirst(Strip(raw), FIELD_SEP);
            && (!p.Raised? ==> d.Some?)
            && (p.Finished? ==>
                  && Contains(Strip(raw), FILE_TRAILER)
                  && Times(Flatten(p.state.spire), x) + Times(Flatten(p.state.lite), x) == Held(s, x) + Times([d.value], x))
            && (p.Reading? ==>
                  !Contains(Strip(raw), FILE_TRAILER) && Held(p.state, x) == Held(s, x) + Times([d.value], x))
  {
    var line := Strip(raw);
    var p := Step(raw, liteLicences, usage, s);
    if !p.Raised? {
      var entered := EnterLicence(line, s, liteLicences).value;
      var d := AfterFirst(line, FIELD_SEP).value;
      var s2 := entered.(block := entered.block + [d]);
      var s3 := s2.(rows := MapTransaction(line, d, s2, usage).value);
      TimesAppend(s.block, [d], x);
      assert Held(s3, x) == Held(s, x) + Times([d], x);
      if p.Finished? {
        TimesFlattenPush(s3.spire, s3.block, x);
      } else {
        HeldAfterClose(line, s3, x);
        HeldAfterClose(line, CloseHeader(line, s3), x);
      }
    }
  }

  lemma {:induction false} RunConserves(lines: seq<string>, liteLicences: set<string>, usage: Option<nat>, s: SplitState, x: string)
    ensures var p := Run(lines, liteLicences, usage, s);
            p.Finished? ==>
              Times(Flatten(p.state.spire), x) + Times(Flatten(p.state.lite), x) == Held(s, x) + Times(DataLines(lines), x)
  {
    if lines != [] {
      StepConserves(lines[0], liteLicences, usage, s, x);
      match Step(lines[0], liteLicences, usage, s) {
        case Reading(s') =>
          var d := AfterFirst(Strip(lines[0]), FIELD_SEP).value;
          RunConserves(lines[1..], liteLicences, usage, s', x);
          TimesAppend([d], DataLines(lines[1..]), x);
        case _ =>
      }
    }
  }

  /**
   No line is lost or doubled, for every text on which the split reaches a trailer: each line
   `x` occurs on the two sides together exactly as often as in the file up to the trailer.
   */
  lemma SplitLosesNothing(data: string, liteLicences: set<string>, usage: Option<nat>, rows: set<TransactionRow>, x: string)
    ensures var p := SplitFile(data, liteLicences, usage, rows);
            p.Finished? ==>
              Times(Flatten(p.state.spire), x) + Times(Flatten(p.state.lite), x) == Times(DataLines(Split(data, LINE_SEP)), x)
  {
    RunConserves(Split(data, LINE_SEP), liteLicences, usage, Start(rows), x);
  }
}
