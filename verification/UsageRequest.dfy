/**
 Who owns a usage file, and what SPIRE is sent of it: `get_licence_ids`, the flags that
 `UsageDataSerializer.create` stores, and the usage branch of `build_request_mail_message_dto`.
 */
module UsageRequest {
  import opened Text
  import opened UsageSplit
  import opened UsageFiles
  import opened UsagePartition

  // ---------------------------------------------------------------- licence ids

  /** Column 4 of every line whose column 1 mentions a licence; `None` is `IndexError`. */
  function IdsOf(lines: seq<string>): Option<seq<string>> {
    if lines == [] then Some([])
    else if lines[0] == "" then IdsOf(lines[1..])
    else
      var tokens := Split(lines[0], FIELD_SEP);
      if |tokens| < 2 then None
      else if !Contains(tokens[1], "licence") then IdsOf(lines[1..])
      else if |tokens| < 5 then None
      else Prefixed([tokens[4]], IdsOf(lines[1..]))
  }

  function Prefixed(first: seq<string>, rest: Option<seq<string>>): Option<seq<string>> {
    match rest
    case None => None
    case Some(ids) => Some(first + ids)
  }

  function StripBlanksLeft(s: string): string {
    if s != "" && s[0] == ' ' then StripBlanksLeft(s[1..]) else s
  }

  function StripBlanksRight(s: string): string {
    if s != "" && s[|s| - 1] == ' ' then StripBlanksRight(s[..|s| - 1]) else s
  }

  /** `s.strip(" ")`. */
  function StripBlanks(s: string): string {
    StripBlanksRight(StripBlanksLeft(s))
  }

  /** `get_licence_ids`. */
  method GetLicenceIds(body: string) returns (r: Option<seq<string>>)
    ensures r == IdsOf(Split(StripBlanks(body), LINE_SEP))
  {
    var lines := Split(StripBlanks(body), LINE_SEP);
    var ids: seq<string> := [];
    assert lines[0..] == lines;
    assert IdsOf(lines).Some? ==> [] + IdsOf(lines).value == IdsOf(lines).value;
    for i := 0 to |lines|
      invariant Prefixed(ids, IdsOf(lines[i..])) == IdsOf(lines)
    {
      assert lines[i..][1..] == lines[i + 1..];
      if lines[i] != "" {
        var tokens := Split(lines[i], FIELD_SEP);
        if |tokens| < 2 {
          return None;
        }
        if Contains(tokens[1], "licence") {
          if |tokens| < 5 {
            return None;
          }
          if IdsOf(lines[i + 1..]).Some? {
            Assoc(ids, [tokens[4]], IdsOf(lines[i + 1..]).value);
          }
          ids := ids + [tokens[4]];
        }
      }
    }
    assert ids + [] == ids;
    return Some(ids);
  }

  /** Whether some licence of the file is LITE's (or is not); null when there is no licence at all. */
  function OwnerFlag(ids: seq<string>, liteLicences: set<string>, lite: bool): Option<bool> {
    if ids == [] then None else Some(exists k | 0 <= k < |ids| :: (ids[k] in liteLicences) == lite)
  }

  /**
   The two flags `UsageDataSerializer.create` stores. Both stay null when there is no licence:
   they are written inside the loop.
   */
  method OwnerFlags(ids: seq<string>, liteLicences: set<string>) returns (hasLite: Option<bool>, hasSpire: Option<bool>)
    ensures hasLite == OwnerFlag(ids, liteLicences, true)
    ensures hasSpire == OwnerFlag(ids, liteLicences, false)
  {
    var lite, spire := false, false;
    hasLite, hasSpire := None, None;
    for i := 0 to |ids|
      invariant lite <==> exists k :: 0 <= k < i && (ids[k] in liteLicences) == true
      invariant spire <==> exists k :: 0 <= k < i && (ids[k] in liteLicences) == false
      invariant i == 0 ==> hasLite == None && hasSpire == None
      invariant i > 0 ==> hasLite == Some(lite) && hasSpire == Some(spire)
    {
      if ids[i] in liteLicences {
        lite := true;
      } else {
        spire := true;
      }
      hasLite, hasSpire := Some(lite), Some(spire);
    }
  }

  // ---------------------------------------------------------------- the ids of a well-formed file

  function Licences(blocks: seq<UsageBlock>): seq<string>
    requires BlocksOk(blocks)
  {
    if blocks == [] then [] else [Licence(blocks[0])] + Licences(blocks[1..])
  }

  lemma {:induction false} IdsAppend(a: seq<string>, b: seq<string>)
    ensures IdsOf(a + b) ==
            match IdsOf(a)
            case None => None
            case Some(ids) => Prefixed(ids, IdsOf(b))
  {
    if a == [] {
      assert a + b == b;
      if IdsOf(b).Some? {
        assert [] + IdsOf(b).value == IdsOf(b).value;
      }
    } else {
      assert (a + b)[1..] == a[1..] + b;
      IdsAppend(a[1..], b);
      var tokens := Split(a[0], FIELD_SEP);
      if IdsOf(a[1..]).Some? && IdsOf(b).Some? && |tokens| >= 5 {
        Assoc([tokens[4]], IdsOf(a[1..]).value, IdsOf(b).value);
      }
    }
  }

  /** The columns of a padded line: the padding stays on the last one. */
  lemma PaddedColumns(n: nat, r: Fields, pad: string)
    requires Clean(r) && PadOk(pad)
    ensures Split(NumberedLine(n, Body(r)) + pad, FIELD_SEP) == [Decimal(n)] + r[..|r| - 1] + [r[|r| - 1] + pad]
  {
    DecimalRoundTrip(n);
    var last := |r| - 1;
    var columns := [Decimal(n)] + r[..last] + [r[last] + pad];
    JoinAppend([Decimal(n)] + r[..last], r[last] + pad, FIELD_SEP);
    JoinAppend([Decimal(n)] + r[..last], r[last], FIELD_SEP);
    var front := Join([Decimal(n)] + r[..last], FIELD_SEP) + [FIELD_SEP];
    assert [Decimal(n)] + r[..last] + [r[last]] == [Decimal(n)] + r;
    assert ([Decimal(n)] + r)[1..] == r;
    assert Join([Decimal(n)] + r, FIELD_SEP) == NumberedLine(n, Body(r));
    Assoc(front, r[last], pad);
    assert Join(columns, FIELD_SEP) == NumberedLine(n, Body(r)) + pad;
    assert AllFree(columns, FIELD_SEP);
    SplitJoin(columns, FIELD_SEP);
  }

  predicate IsLicenceType(s: string) {
    Contains(s, "licence")
  }

  lemma RecordTypesAndLicence()
    ensures IsLicenceType(LICENCE_USAGE)
    ensures !IsLicenceType(LINE) && !IsLicenceType("usage") && !IsLicenceType(END) && !IsLicenceType("")
  {
    assert LICENCE_USAGE[0..7] == "licence";
    assert At(LICENCE_USAGE, 0, "licence");
  }

  lemma NoLicenceWithoutSecondI(s: string, w: string)
    requires |w| == 7 && forall i :: 0 <= i && i + 7 <= |s| ==> s[i] != 'l' || s[i + 1] != 'i'
    requires w[0] == 'l' && w[1] == 'i'
    ensures !Contains(s, w)
  {
    forall i | 0 <= i <= |s|
      ensures !At(s, i, w)
    {
      if i + 7 <= |s| {
        assert s[i..i + 7][0] == s[i] && s[i..i + 7][1] == s[i + 1];
      }
    }
  }

  lemma FileTypesNameNoLicence()
    ensures !IsLicenceType(FILE_HEADER) && !IsLicenceType(FILE_TRAILER)
    ensures !IsLicenceType(FILE_HEADER + "\r") && !IsLicenceType(FILE_TRAILER + "\r")
  {
    NoLicenceWithoutSecondI(FILE_HEADER, "licence");
    NoLicenceWithoutSecondI(FILE_TRAILER, "licence");
    NoLicenceWithoutSecondI(FILE_HEADER + "\r", "licence");
    NoLicenceWithoutSecondI(FILE_TRAILER + "\r", "licence");
  }

  /** A line that is no licence header contributes no id. */
  lemma IdsOfOther(n: nat, r: Fields, pad: string)
    requires PadOk(pad) && (HeaderOk(r) || TrailerOk(r) || DetailOk(r) || TailOk(r))
    ensures IdsOf([NumberedLine(n, Body(r)) + pad]) == Some([])
  {
    PaddedColumns(n, r, pad);
    RecordTypesAndLicence();
    FileTypesNameNoLicence();
    var line := NumberedLine(n, Body(r)) + pad;
    var tokens := Split(line, FIELD_SEP);
    assert [line][1..] == [];
    assert |r| == 1 ==> tokens[1] == r[0] + pad;
    assert |r| > 1 ==> tokens[1] == r[0];
    assert r[0] + "" == r[0];
    assert !Contains(tokens[1], "licence") by {
      if pad == "\r" && |r| == 1 && !HeaderOk(r) && !TrailerOk(r) {
        assert |tokens[1]| <= 6;
      }
    }
  }

  lemma IdsOfHead(n: nat, r: Fields, pad: string)
    requires PadOk(pad) && HeadOk(r)
    ensures IdsOf([NumberedLine(n, Body(r)) + pad]) == Some([r[3]])
  {
    PaddedColumns(n, r, pad);
    RecordTypesAndLicence();
    var line := NumberedLine(n, Body(r)) + pad;
    assert [line][1..] == [];
    assert [r[3]] + [] == [r[3]];
  }

  lemma {:induction false} IdsOfDetails(details: seq<Fields>, n: nat, pad: string)
    requires DetailsOk(details) && PadOk(pad)
    ensures IdsOf(NumberedLines(Bodies(details), n, pad)) == Some([])
  {
    if details != [] {
      IdsOfOther(n, details[0], pad);
      IdsOfDetails(details[1..], n + 1, pad);
      IdsAppend([NumberedLine(n, Body(details[0])) + pad], NumberedLines(Bodies(details[1..]), n + 1, pad));
    }
  }

  lemma HeadHasLicence(b: UsageBlock)
    requires HeadOk(b.head)
    ensures |b.head| >= 4 && Licence(b) == b.head[3]
  {
  }

  lemma IdsOfBlock(b: UsageBlock, n: nat, pad: string)
    requires BlockOk(b) && PadOk(pad)
    ensures IdsOf(NumberedLines(BlockBodies(b), n, pad)) == Some([Licence(b)])
  {
    hide IdsOf, HeadOk, TailOk, DetailOk, NumberedLine, Body, Bodies;
    BlockLines(b, n, pad);
    var inner := NumberedLines(Bodies(b.details), n + 1, pad);
    var m := n + 1 + |Bodies(b.details)|;
    var last := [NumberedLine(m, Body(b.tail)) + pad];
    HeadHasLicence(b);
    IdsOfHead(n, b.head, pad);
    IdsOfDetails(b.details, n + 1, pad);
    IdsOfOther(m, b.tail, pad);
    IdsAppend(inner, last);
    IdsAppend([NumberedLine(n, Body(b.head)) + pad], inner + last);
    PrefixedNothing(IdsOf(last));
    PrefixedSome([b.head[3]], []);
    assert [b.head[3]] + [] == [b.head[3]];
  }

  lemma NoIds(n: nat, pad: string)
    ensures IdsOf(NumberedLines([], n, pad)) == Some([])
  {
  }

  lemma {:induction false} IdsOfBlocks(blocks: seq<UsageBlock>, n: nat, pad: string)
    requires BlocksOk(blocks) && PadOk(pad)
    ensures IdsOf(NumberedLines(Flatten(AllBlockBodies(blocks)), n, pad)) == Some(Licences(blocks))
  {
    hide IdsOf, HeadOk, TailOk, DetailOk, NumberedLines, BlockBodies, Licence;
    if blocks == [] {
      NoIds(n, pad);
    } else {
      assert BlockOk(blocks[0]);
      var first := BlockBodies(blocks[0]);
      var others := Flatten(AllBlockBodies(blocks[1..]));
      assert AllBlockBodies(blocks)[1..] == AllBlockBodies(blocks[1..]);
      NumberedLinesAppend(first, others, n, pad);
      IdsOfBlock(blocks[0], n, pad);
      IdsOfBlocks(blocks[1..], n + |first|, pad);
      IdsAppend(NumberedLines(first, n, pad), NumberedLines(others, n + |first|, pad));
    }
  }

  lemma NoBlanksToStrip(s: string)
    requires s != "" && s[0] != ' ' && s[|s| - 1] != ' '
    ensures StripBlanks(s) == s
  {
  }

  lemma {:induction false} JoinEnds(lines: seq<string>, sep: char)
    requires |lines| >= 1 && lines[0] != "" && lines[|lines| - 1] != ""
    ensures var s := Join(lines, sep);
            s != "" && s[0] == lines[0][0] && s[|s| - 1] == lines[|lines| - 1][|lines[|lines| - 1]| - 1]
  {
    if |lines| == 2 {
      assert lines[1..] == [lines[1]];
    } else if |lines| > 2 {
      JoinAppend(lines[..|lines| - 1], lines[|lines| - 1], sep);
      assert lines[..|lines| - 1] + [lines[|lines| - 1]] == lines;
    }
  }

  /** The lines after the trailer, as they are once blanks at the end of the text are stripped. */
  function Trimmed(rest: seq<string>): seq<string> {
    if rest == [] then [] else rest[..|rest| - 1] + [StripBlanksRight(rest[|rest| - 1])]
  }

  lemma {:induction false} StripRightAfter(a: string, b: string)
    requires a != "" && a[|a| - 1] != ' '
    ensures StripBlanksRight(a + b) == a + StripBlanksRight(b)
  {
    if b == "" {
      assert a + b == a;
    } else if b[|b| - 1] == ' ' {
      assert (a + b)[..|a + b| - 1] == a + b[..|b| - 1];
      StripRightAfter(a, b[..|b| - 1]);
    }
  }

  lemma {:induction false} StripRightFree(s: string, sep: char)
    requires Free(s, sep)
    ensures Free(StripBlanksRight(s), sep)
  {
    if s != "" && s[|s| - 1] == ' ' {
      StripRightFree(s[..|s| - 1], sep);
    }
  }

  /** Stripping a text of lines, the first of which starts and the last of which ends without a blank. */
  lemma StripLines(lines: seq<string>, rest: seq<string>)
    requires |lines| >= 1 && lines[0] != "" && lines[0][0] != ' '
    requires lines[|lines| - 1] != "" && lines[|lines| - 1][|lines[|lines| - 1]| - 1] != ' '
    ensures StripBlanks(Join(lines + rest, LINE_SEP)) == Join(lines + Trimmed(rest), LINE_SEP)
  {
    JoinEnds(lines, LINE_SEP);
    if rest == [] {
      assert lines + rest == lines;
      NoBlanksToStrip(Join(lines, LINE_SEP));
    } else {
      StripLastLine(lines, rest[..|rest| - 1], rest[|rest| - 1]);
      assert rest[..|rest| - 1] + [rest[|rest| - 1]] == rest;
    }
  }

  lemma StripLastLine(lines: seq<string>, middle: seq<string>, last: string)
    requires |lines| >= 1 && lines[0] != "" && lines[0][0] != ' '
    ensures StripBlanks(Join(lines + (middle + [last]), LINE_SEP)) == Join(lines + (middle + [StripBlanksRight(last)]), LINE_SEP)
  {
    var all := lines + middle;
    Assoc(lines, middle, [last]);
    Assoc(lines, middle, [StripBlanksRight(last)]);
    JoinAppend(all, last, LINE_SEP);
    JoinAppend(all, StripBlanksRight(last), LINE_SEP);
    var front := Join(all, LINE_SEP) + [LINE_SEP];
    JoinStart(all, LINE_SEP);
    assert front[0] == lines[0][0] && (front + last)[0] == front[0];
    StripRightAfter(front, last);
  }

  lemma JoinStart(lines: seq<string>, sep: char)
    requires |lines| >= 1 && lines[0] != ""
    ensures Join(lines, sep) != "" && Join(lines, sep)[0] == lines[0][0]
  {
  }

  lemma TrimmedFree(rest: seq<string>)
    requires AllFree(rest, LINE_SEP)
    ensures AllFree(Trimmed(rest), LINE_SEP)
  {
    if rest != [] {
      StripRightFree(rest[|rest| - 1], LINE_SEP);
    }
  }

  /** A numbered line of a clean record starts with a digit and does not end in a blank. */
  lemma LineEnds(n: nat, r: Fields, pad: string)
    requires Clean(r) && PadOk(pad)
    ensures var line := NumberedLine(n, Body(r)) + pad;
            line != "" && line[0] != ' ' && line[|line| - 1] != ' '
  {
    hide *;
    DecimalStart(n);
    EndOfBody(r);
    LineFromParts(Decimal(n), Body(r), pad);
    NumberedLineIs(n, Body(r));
  }

  lemma DecimalStart(n: nat)
    ensures Decimal(n) != "" && Decimal(n)[0] != ' '
  {
    DecimalRoundTrip(n);
  }

  lemma EndOfBody(r: Fields)
    requires Clean(r)
    ensures Body(r) != "" ==> Body(r)[|Body(r)| - 1] != ' '
  {
    BodyEnd(r);
  }

  lemma NumberedLineIs(n: nat, body: string)
    ensures NumberedLine(n, body) == Decimal(n) + [FIELD_SEP] + body
  {
  }

  lemma LineFromParts(number: string, body: string, pad: string)
    requires number != "" && number[0] != ' ' && (body != "" ==> body[|body| - 1] != ' ') && PadOk(pad)
    ensures var line := number + [FIELD_SEP] + body + pad;
            line != "" && line[0] != ' ' && line[|line| - 1] != ' '
  {
  }

  /** The file's lines once the text is stripped: those of its records, then the trimmed tail. */
  lemma StrippedFile(f: UsageFile, pad: string, rest: seq<string>) returns (m: nat)
    requires WellFormed(f) && PadOk(pad) && AllFree(rest, LINE_SEP)
    ensures Split(StripBlanks(FileText(f, pad, rest)), LINE_SEP) ==
            [NumberedLine(1, Body(f.header)) + pad]
            + (NumberedLines(Flatten(AllBlockBodies(f.blocks)), 2, pad)
               + ([NumberedLine(m, Body(f.trailer)) + pad] + Trimmed(rest)))
  {
    var lines := NumberedLines(Flatten(FileBlocks(f)), 1, pad);
    FileEnds(f, pad);
    TrimmedFree(rest);
    hide *;
    StripLines(lines, rest);
    FileTextIsJoin(f, pad, rest);
    FileTextIsJoin(f, pad, Trimmed(rest));
    m := NumberedFile(f, pad, Trimmed(rest));
  }

  lemma FileTextIsJoin(f: UsageFile, pad: string, rest: seq<string>)
    ensures FileText(f, pad, rest) == Join(NumberedLines(Flatten(FileBlocks(f)), 1, pad) + rest, LINE_SEP)
  {
  }

  lemma FileEnds(f: UsageFile, pad: string)
    requires WellFormed(f) && PadOk(pad)
    ensures var lines := NumberedLines(Flatten(FileBlocks(f)), 1, pad);
            && |lines| >= 1 && lines[0] != "" && lines[0][0] != ' '
            && lines[|lines| - 1] != "" && lines[|lines| - 1][|lines[|lines| - 1]| - 1] != ' '
  {
    FileLines(f);
    var bodies := Flatten(FileBlocks(f));
    assert bodies[0] == Body(f.header) && bodies[|bodies| - 1] == Body(f.trailer);
    NumberedLinesAt(bodies, 1, pad);
    LineEnds(1, f.header, pad);
    LineEnds(|bodies|, f.trailer, pad);
  }

  /**
   The licence ids of a well-formed file are its blocks' licences, in file order, followed by
   those of whatever lines follow the trailer; a final line end adds none.
   */
  lemma IdsOfFile(f: UsageFile, pad: string, rest: seq<string>)
    requires WellFormed(f) && PadOk(pad) && AllFree(rest, LINE_SEP)
    ensures IdsOf(Split(StripBlanks(FileText(f, pad, rest)), LINE_SEP)) == Prefixed(Licences(f.blocks), IdsOf(Trimmed(rest)))
  {
    var m := StrippedFile(f, pad, rest);
    var first := NumberedLine(1, Body(f.header)) + pad;
    var inner := NumberedLines(Flatten(AllBlockBodies(f.blocks)), 2, pad);
    var last := NumberedLine(m, Body(f.trailer)) + pad;
    IdsOfOther(1, f.header, pad);
    IdsOfBlocks(f.blocks, 2, pad);
    IdsOfOther(m, f.trailer, pad);
    hide IdsOf, StripBlanks, Trimmed, FileText, NumberedLines, Licences;
    IdsAppend([last], Trimmed(rest));
    IdsAppend(inner, [last] + Trimmed(rest));
    IdsAppend([first], inner + ([last] + Trimmed(rest)));
    PrefixedNothing(IdsOf(Trimmed(rest)));
    PrefixedNothing(Prefixed(Licences(f.blocks), IdsOf(Trimmed(rest))));
  }

  lemma PrefixedNothing(ids: Option<seq<string>>)
    ensures Prefixed([], ids) == ids
  {
    if ids.Some? {
      assert [] + ids.value == ids.value;
    }
  }

  /** A text that ends with its trailer, or with the line end of its trailer, names no further licence. */
  lemma EndOfFileNamesNoLicence()
    ensures IdsOf(Trimmed([])) == Some([]) && IdsOf(Trimmed([""])) == Some([])
  {
    assert [""][..0] == [];
    assert [""][1..] == [];
  }

  lemma {:induction false} SideNonEmpty(blocks: seq<UsageBlock>, liteLicences: set<string>, lite: bool)
    requires BlocksOk(blocks)
    ensures var ids := Licences(blocks);
            Side(blocks, liteLicences, lite) != [] <==>
            exists k :: 0 <= k < |ids| && (ids[k] in liteLicences) == lite
  {
    if blocks != [] {
      SideNonEmpty(blocks[1..], liteLicences, lite);
      var ids := Licences(blocks);
      assert ids[0] == Licence(blocks[0]) && ids[1..] == Licences(blocks[1..]);
      if exists k :: 0 <= k < |ids[1..]| && (ids[1..][k] in liteLicences) == lite {
        var k :| 0 <= k < |ids[1..]| && (ids[1..][k] in liteLicences) == lite;
        assert ids[k + 1] == ids[1..][k];
      }
      if exists k :: 0 <= k < |ids| && (ids[k] in liteLicences) == lite {
        var k :| 0 <= k < |ids| && (ids[k] in liteLicences) == lite;
        assert k > 0 ==> ids[1..][k - 1] == ids[k];
      }
    }
  }

  lemma {:induction false} BlockCount(blocks: seq<UsageBlock>)
    ensures |AllBlockBodies(blocks)| == |blocks|
  {
    if blocks != [] {
      BlockCount(blocks[1..]);
    }
  }

  function ReadFlag(flag: Option<bool>): bool {
    flag.Some? && flag.value
  }

  /** Both flags say what the split says. */
  predicate Agree(ids: seq<string>, liteLicences: set<string>, spire: seq<Block>, lite: seq<Block>) {
    && (ReadFlag(OwnerFlag(ids, liteLicences, true)) <==> lite != [])
    && (ReadFlag(OwnerFlag(ids, liteLicences, false)) <==> |spire| > 2)
  }

  /** Each of the licences has an owner who owns a block of the file. */
  predicate OwnersHaveBlocks(licences: seq<string>, blocks: seq<UsageBlock>, liteLicences: set<string>)
    requires BlocksOk(blocks)
  {
    forall k :: 0 <= k < |licences| ==> Side(blocks, liteLicences, licences[k] in liteLicences) != []
  }

  /**
   Two independent readings of one file agree: `has_lite_data`, null read as false, holds exactly
   when the split yields a LITE block, and `has_spire_data` exactly when its SPIRE side is more
   than header and trailer, which is when SPIRE is sent a file. They agree exactly when each
   licence named after the trailer, where only the first reading looks, has an owner with a block
   in the file; so they do for every file that ends with its trailer line.
   */
  lemma OwnersAgree(f: UsageFile, pad: string, rest: seq<string>, liteLicences: set<string>)
    requires WellFormed(f) && PadOk(pad) && AllFree(rest, LINE_SEP)
    ensures var text := FileText(f, pad, rest);
            var ids := IdsOf(Split(StripBlanks(text), LINE_SEP));
            var split := ResultOf(SplitFile(text, liteLicences, None, {}));
            var tail := IdsOf(Trimmed(rest));
            && split.Blocks? && (ids.Some? <==> tail.Some?)
            && (tail.Some? ==> (Agree(ids.value, liteLicences, split.spire, split.lite) <==>
                                OwnersHaveBlocks(tail.value, f.blocks, liteLicences)))
  {
    hide *;
    IdsOfFile(f, pad, rest);
    SplitSides(f, pad, rest, liteLicences);
    PrefixedNone(Licences(f.blocks));
    if IdsOf(Trimmed(rest)).Some? {
      var tail := IdsOf(Trimmed(rest)).value;
      var split := ResultOf(SplitFile(FileText(f, pad, rest), liteLicences, None, {}));
      PrefixedSome(Licences(f.blocks), tail);
      TailAgrees(f.blocks, tail, liteLicences, split.spire, split.lite);
    }
  }

  lemma PrefixedNone(a: seq<string>)
    ensures Prefixed(a, None) == None
  {
  }

  lemma PrefixedSome(a: seq<string>, b: seq<string>)
    ensures Prefixed(a, Some(b)) == Some(a + b)
  {
  }

  lemma SplitSides(f: UsageFile, pad: string, rest: seq<string>, liteLicences: set<string>)
    requires WellFormed(f) && PadOk(pad) && AllFree(rest, LINE_SEP)
    ensures BlocksOk(f.blocks)
    ensures var split := ResultOf(SplitFile(FileText(f, pad, rest), liteLicences, None, {}));
            && split.Blocks?
            && (split.lite != [] <==> Side(f.blocks, liteLicences, true) != [])
            && (|split.spire| > 2 <==> Side(f.blocks, liteLicences, false) != [])
  {
    SplitIsPartition(f, pad, rest, liteLicences, None, {});
    BlockCount(Side(f.blocks, liteLicences, true));
    BlockCount(Side(f.blocks, liteLicences, false));
  }

  lemma TailAgrees(blocks: seq<UsageBlock>, tail: seq<string>, liteLicences: set<string>, spire: seq<Block>, lite: seq<Block>)
    requires BlocksOk(blocks)
    requires lite != [] <==> Side(blocks, liteLicences, true) != []
    requires |spire| > 2 <==> Side(blocks, liteLicences, false) != []
    ensures Agree(Licences(blocks) + tail, liteLicences, spire, lite) <==> OwnersHaveBlocks(tail, blocks, liteLicences)
  {
    FlagOfTail(blocks, tail, liteLicences, true);
    FlagOfTail(blocks, tail, liteLicences, false);
  }

  predicate SomeOwned(ids: seq<string>, liteLicences: set<string>, lite: bool) {
    exists k :: 0 <= k < |ids| && (ids[k] in liteLicences) == lite
  }

  lemma FlagOfTail(blocks: seq<UsageBlock>, tail: seq<string>, liteLicences: set<string>, lite: bool)
    requires BlocksOk(blocks)
    ensures ReadFlag(OwnerFlag(Licences(blocks) + tail, liteLicences, lite)) <==>
            Side(blocks, liteLicences, lite) != [] || SomeOwned(tail, liteLicences, lite)
  {
    SideNonEmpty(blocks, liteLicences, lite);
    var ids := Licences(blocks);
    var all := ids + tail;
    if SomeOwned(tail, liteLicences, lite) {
      var k :| 0 <= k < |tail| && (tail[k] in liteLicences) == lite;
      assert all[|ids| + k] == tail[k];
    }
    if Side(blocks, liteLicences, lite) != [] {
      var k :| 0 <= k < |ids| && (ids[k] in liteLicences) == lite;
      assert all[k] == ids[k];
    }
    assert SomeOwned(all, liteLicences, lite) ==> SomeOwned(ids, liteLicences, lite) || SomeOwned(tail, liteLicences, lite);
  }

  // ---------------------------------------------------------------- the file sent to SPIRE

  /** `build_sent_file_data`: column 6 of the first line becomes the run number; `None` is `IndexError`. */
  function SentFileData(data: string, runNumber: nat): Option<string> {
    var first := Split(Split(data, LINE_SEP)[0], FIELD_SEP);
    match AfterFirst(data, LINE_SEP)
    case None => None
    case Some(rest) =>
      if |first| < 7 then None
      else Some(Join(first[6 := Decimal(runNumber)], FIELD_SEP) + [LINE_SEP] + rest)
  }

  /** The usage branch of `build_request_mail_message_dto`: no attachment when SPIRE owns no licence. */
  datatype Request = NothingToSend | Attachment(text: string) | RequestError

  function SpireRequest(data: string, liteLicences: set<string>, runNumber: nat): Request {
    match ResultOf(SplitFile(data, liteLicences, None, {}))
    case SplitError => RequestError
    case Blocks(spire, _) =>
      if |spire| <= 2 then NothingToSend
      else
        match SentFileData(Join(NumberedLines(Flatten(spire), 1, ""), LINE_SEP), runNumber)
        case None => RequestError
        case Some(text) => Attachment(text)
  }

  /** A header with room for a run number. */
  predicate HasRunNumber(header: Fields) {
    |header| >= 6
  }

  /**
   What SPIRE is sent: nothing when no licence in the file is SPIRE's, and otherwise the file
   holding the same header with the new run number, SPIRE's blocks alone, and the same trailer,
   renumbered from 1. The trailer's transaction count is the whole file's: it is not recomputed.
   */
  lemma SpireIsSentItsOwnBlocks(f: UsageFile, pad: string, rest: seq<string>, liteLicences: set<string>, runNumber: nat)
    requires WellFormed(f) && PadOk(pad) && AllFree(rest, LINE_SEP) && HasRunNumber(f.header)
    ensures var own := SpireSide(f, liteLicences);
            SpireRequest(FileText(f, pad, rest), liteLicences, runNumber) ==
            if own.blocks == [] then NothingToSend
            else Attachment(FileText(own.(header := f.header[5 := Decimal(runNumber)]), "", []))
  {
    SplitIsPartition(f, pad, rest, liteLicences, None, {});
    var own := SpireSide(f, liteLicences);
    BlockCount(own.blocks);
    SentWithRunNumber(own, runNumber);
    var lines := NumberedLines(Flatten(FileBlocks(own)), 1, "");
    assert lines + [] == lines;
  }

  lemma {:induction false} SidesAddUp(blocks: seq<UsageBlock>, liteLicences: set<string>)
    requires BlocksOk(blocks)
    ensures |Side(blocks, liteLicences, true)| + |Side(blocks, liteLicences, false)| == |blocks|
  {
    if blocks != [] {
      SidesAddUp(blocks[1..], liteLicences);
    }
  }

  /** The count on a trailer, if there is one, is the number of licence blocks. */
  predicate TrailerIsTrue(f: UsageFile) {
    |f.trailer| >= 2 && f.trailer[1] == Decimal(|f.blocks|)
  }

  /** Of a file with a true trailer count, the part sent to SPIRE has one exactly when it is all SPIRE's. */
  lemma SentTrailerIsTrueExactlyWhenAllIsSpires(f: UsageFile, liteLicences: set<string>)
    requires WellFormed(f) && TrailerIsTrue(f)
    ensures TrailerIsTrue(SpireSide(f, liteLicences)) <==> Side(f.blocks, liteLicences, true) == []
  {
    var own := |Side(f.blocks, liteLicences, false)|;
    SidesAddUp(f.blocks, liteLicences);
    DecimalRoundTrip(own);
    DecimalRoundTrip(|f.blocks|);
  }

  lemma SentWithRunNumber(f: UsageFile, runNumber: nat)
    requires WellFormed(f) && HasRunNumber(f.header)
    ensures SentFileData(FileText(f, "", []), runNumber) ==
            Some(FileText(f.(header := f.header[5 := Decimal(runNumber)]), "", []))
  {
    var header := f.header[5 := Decimal(runNumber)];
    var others := Flatten(AllBlockBodies(f.blocks)) + [Body(f.trailer)];
    var tail := Join(NumberedLines(others, 2, ""), LINE_SEP);
    HeaderThenRest(f, others);
    HeaderThenRest(f.(header := header), others);
    var line := NumberedLine(1, Body(f.header));
    assert line + "" == line && NumberedLine(1, Body(header)) + "" == NumberedLine(1, Body(header));
    LineShape(1, f.header, "");
    AfterFirstSep(line, tail, LINE_SEP);
    SplitAtSep(line, tail, LINE_SEP);
    HeaderColumns(f.header, runNumber);
  }

  lemma HeaderColumns(header: Fields, runNumber: nat)
    requires Clean(header) && HasRunNumber(header)
    ensures var columns := Split(NumberedLine(1, Body(header)), FIELD_SEP);
            && |columns| >= 7
            && Join(columns[6 := Decimal(runNumber)], FIELD_SEP) == NumberedLine(1, Body(header[5 := Decimal(runNumber)]))
  {
    LineShape(1, header, "");
    var columns := [Decimal(1)] + header;
    var sent := header[5 := Decimal(runNumber)];
    assert columns[6 := Decimal(runNumber)] == [Decimal(1)] + sent;
    assert ([Decimal(1)] + sent)[1..] == sent;
  }

  lemma HeaderThenRest(f: UsageFile, others: seq<string>)
    requires others == Flatten(AllBlockBodies(f.blocks)) + [Body(f.trailer)]
    ensures FileText(f, "", []) ==
            NumberedLine(1, Body(f.header)) + "" + [LINE_SEP] + Join(NumberedLines(others, 2, ""), LINE_SEP)
  {
    var middle := AllBlockBodies(f.blocks);
    FlattenAppend([[Body(f.header)]] + middle, [[Body(f.trailer)]]);
    FlattenAppend([[Body(f.header)]], middle);
    FlattenOne([Body(f.header)]);
    FlattenOne([Body(f.trailer)]);
    Assoc([Body(f.header)], Flatten(middle), [Body(f.trailer)]);
    NumberedLinesCons(Body(f.header), others, 1, "");
    var tail := NumberedLines(others, 2, "");
    var lines := [NumberedLine(1, Body(f.header)) + ""] + tail;
    NumberedLinesAt(others, 2, "");
    assert lines + [] == lines && lines[1..] == tail;
  }
}
