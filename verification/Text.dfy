/**
 Text as the line files use it: separated fields, decimal numbers, substring tests.

 `Split`, `Join`, `Contains`, `Count` and `Strip` are Python's `str.split(sep)`, `sep.join`,
 `in`, `str.count` and `str.strip()` for the inputs the line files give them.
 */
module Text {

  datatype Option<+T> = None | Some(value: T)

  const FIELD_SEP: char := '\\'
  const LINE_SEP: char := '\n'

  // ---------------------------------------------------------------- fields

  /** `s.split(sep)`: always at least one part. */
  function Split(s: string, sep: char): (parts: seq<string>)
    ensures |parts| >= 1
  {
    if s == "" then [""]
    else
      var rest := Split(s[1..], sep);
      if s[0] == sep then [""] + rest else [[s[0]] + rest[0]] + rest[1..]
  }

  /** `sep.join(parts)`. */
  function Join(parts: seq<string>, sep: char): string {
    if |parts| == 0 then ""
    else if |parts| == 1 then parts[0]
    else parts[0] + [sep] + Join(parts[1..], sep)
  }

  predicate Free(s: string, sep: char) {
    sep !in s
  }

  predicate AllFree(parts: seq<string>, sep: char) {
    forall k :: 0 <= k < |parts| ==> Free(parts[k], sep)
  }

  /** Splitting at the first separator. */
  lemma {:induction false} SplitAtSep(a: string, b: string, sep: char)
    requires Free(a, sep)
    ensures Split(a + [sep] + b, sep) == [a] + Split(b, sep)
  {
    if a == "" {
      assert a + [sep] + b == [sep] + b;
      assert ([sep] + b)[1..] == b;
    } else {
      var s := a + [sep] + b;
      assert s[1..] == a[1..] + [sep] + b;
      SplitAtSep(a[1..], b, sep);
      assert [a[0]] + a[1..] == a;
    }
  }

  lemma {:induction false} SplitWithoutSep(a: string, sep: char)
    requires Free(a, sep)
    ensures Split(a, sep) == [a]
  {
    if a != "" {
      SplitWithoutSep(a[1..], sep);
      assert [a[0]] + a[1..] == a;
    }
  }

  /** Joining separator-free fields and splitting again gives the fields back. */
  lemma {:induction false} SplitJoin(parts: seq<string>, sep: char)
    requires |parts| >= 1 && AllFree(parts, sep)
    ensures Split(Join(parts, sep), sep) == parts
  {
    if |parts| == 1 {
      SplitWithoutSep(parts[0], sep);
    } else {
      SplitAtSep(parts[0], Join(parts[1..], sep), sep);
      SplitJoin(parts[1..], sep);
      assert [parts[0]] + parts[1..] == parts;
    }
  }

  /** Splitting loses nothing, and its parts are separator-free. */
  lemma {:induction false} JoinSplit(s: string, sep: char)
    ensures Join(Split(s, sep), sep) == s
    ensures AllFree(Split(s, sep), sep)
  {
    if s != "" {
      JoinSplit(s[1..], sep);
      var rest := Split(s[1..], sep);
      if s[0] == sep {
        assert Split(s, sep)[1..] == rest;
        assert s == "" + [sep] + s[1..];
      } else {
        var parts := Split(s, sep);
        assert parts[1..] == rest[1..];
        if |rest| > 1 {
          assert Join(parts, sep) == [s[0]] + Join(rest, sep);
        }
        assert s == [s[0]] + s[1..];
      }
    }
  }

  lemma {:induction false} JoinFree(parts: seq<string>, sep: char, c: char)
    requires c != sep && AllFree(parts, c)
    ensures Free(Join(parts, sep), c)
  {
    if |parts| > 1 {
      JoinFree(parts[1..], sep, c);
    }
  }

  lemma {:induction false} JoinAppend(parts: seq<string>, last: string, sep: char)
    requires |parts| >= 1
    ensures Join(parts + [last], sep) == Join(parts, sep) + [sep] + last
  {
    if |parts| == 1 {
      assert (parts + [last])[1..] == [last];
    } else {
      assert (parts + [last])[1..] == parts[1..] + [last];
      JoinAppend(parts[1..], last, sep);
    }
  }

  // ---------------------------------------------------------------- decimals

  function DigitChar(d: nat): (c: char)
    requires d < 10
    ensures '0' <= c <= '9'
  {
    "0123456789"[d]
  }

  predicate IsDigit(c: char) {
    '0' <= c <= '9'
  }

  predicate IsDigits(s: string) {
    s != "" && forall k :: 0 <= k < |s| ==> IsDigit(s[k])
  }

  /** `str(n)` for a non-negative integer. */
  function Decimal(n: nat): string {
    if n < 10 then [DigitChar(n)] else Decimal(n / 10) + [DigitChar(n % 10)]
  }

  function DigitValue(c: char): nat
    requires IsDigit(c)
  {
    c as int - '0' as int
  }

  /** `int(s)` on a string of digits. */
  function DigitsValue(s: string): nat
    requires forall k :: 0 <= k < |s| ==> IsDigit(s[k])
  {
    if s == "" then 0
    else 10 * DigitsValue(s[..|s| - 1]) + DigitValue(s[|s| - 1])
  }

  /** `int(s)`: surrounding white space and one sign are allowed; `None` is `ValueError`. */
  function ParseInt(s: string): Option<int> {
    var t := Strip(s);
    if IsDigits(t) then Some(DigitsValue(t))
    else if t != "" && t[0] == '-' && IsDigits(t[1..]) then
      var v: int := DigitsValue(t[1..]);
      Some(0 - v)
    else if t != "" && t[0] == '+' && IsDigits(t[1..]) then Some(DigitsValue(t[1..]))
    else None
  }

  lemma DigitCharValue(d: nat)
    requires d < 10
    ensures DigitChar(d) as int - '0' as int == d
  {
    assert "0123456789"[0] == '0' && "0123456789"[1] == '1' && "0123456789"[2] == '2' && "0123456789"[3] == '3';
    assert "0123456789"[4] == '4' && "0123456789"[5] == '5' && "0123456789"[6] == '6' && "0123456789"[7] == '7';
  }

  /** Decimal text reads back as the number it was printed from. */
  lemma {:induction false} DecimalRoundTrip(n: nat)
    ensures IsDigits(Decimal(n))
    ensures DigitsValue(Decimal(n)) == n
    ensures ParseInt(Decimal(n)) == Some(n)
  {
    if n < 10 {
      DigitCharValue(n);
      assert [DigitChar(n)][..0] == "";
    } else {
      DecimalRoundTrip(n / 10);
      DigitCharValue(n % 10);
      var s := Decimal(n);
      assert s[..|s| - 1] == Decimal(n / 10);
    }
    StripSolid(Decimal(n));
  }

  lemma DecimalInjective(m: nat, n: nat)
    requires Decimal(m) == Decimal(n)
    ensures m == n
  {
    DecimalRoundTrip(m);
    DecimalRoundTrip(n);
  }

  lemma SignThenDigits(sign: char, digits: string)
    requires (sign == '-' || sign == '+') && IsDigits(digits)
    ensures var s := [sign] + digits;
            Solid(s) && !IsDigits(s) && s[0] == sign && s[1..] == digits
  {
    var s := [sign] + digits;
    assert !IsDigit(s[0]) && s[|s| - 1] == digits[|digits| - 1];
  }

  /** A sign before the digits is read, and a minus counts. */
  lemma SignedNumbers(n: nat)
    ensures ParseInt(['-'] + Decimal(n)) == Some(0 - n) && ParseInt(['+'] + Decimal(n)) == Some(n)
  {
    DecimalRoundTrip(n);
    SignThenDigits('-', Decimal(n));
    SignThenDigits('+', Decimal(n));
    StripSolid(['-'] + Decimal(n));
    StripSolid(['+'] + Decimal(n));
    hide Strip, Decimal, DigitsValue, IsDigits, Solid;
  }

  // ---------------------------------------------------------------- white space

  predicate IsSpace(c: char) {
    c == ' ' || c == '\t' || c == '\n' || c == '\r' || c as int == 11 || c as int == 12
  }

  function StripLeft(s: string): string {
    if s != "" && IsSpace(s[0]) then StripLeft(s[1..]) else s
  }

  function StripRight(s: string): string {
    if s != "" && IsSpace(s[|s| - 1]) then StripRight(s[..|s| - 1]) else s
  }

  /** `s.strip()`. */
  function Strip(s: string): string {
    StripRight(StripLeft(s))
  }

  /** A text that neither starts nor ends with white space. */
  predicate Solid(s: string) {
    s != "" ==> !IsSpace(s[0]) && !IsSpace(s[|s| - 1])
  }

  lemma StripSolid(s: string)
    requires Solid(s)
    ensures Strip(s) == s
  {
  }

  /** `strip` removes exactly the white space after a solid text. */
  lemma {:induction false} StripPadded(s: string, pad: string)
    requires s != "" && Solid(s)
    requires forall k :: 0 <= k < |pad| ==> IsSpace(pad[k])
    ensures Strip(s + pad) == s
  {
    assert StripLeft(s + pad) == s + pad;
    StripRightPadded(s, pad);
  }

  lemma {:induction false} StripRightPadded(s: string, pad: string)
    requires s != "" && Solid(s)
    requires forall k :: 0 <= k < |pad| ==> IsSpace(pad[k])
    ensures StripRight(s + pad) == s
  {
    if pad == "" {
      assert s + pad == s;
    } else {
      assert (s + pad)[..|s + pad| - 1] == s + pad[..|pad| - 1];
      StripRightPadded(s, pad[..|pad| - 1]);
    }
  }

  // ---------------------------------------------------------------- substrings

  predicate At(s: string, i: int, w: string) {
    0 <= i && i + |w| <= |s| && s[i..i + |w|] == w
  }

  /** `w in s`. */
  predicate Contains(s: string, w: string) {
    exists i | 0 <= i <= |s| :: At(s, i, w)
  }

  lemma ContainsSelf(s: string)
    ensures Contains(s, s)
  {
    assert At(s, 0, s);
  }

  lemma AtLeft(a: string, b: string, i: int, w: string)
    ensures 0 <= i && i + |w| <= |a| ==> (At(a + b, i, w) <==> At(a, i, w))
  {
    if 0 <= i && i + |w| <= |a| {
      assert (a + b)[i..i + |w|] == a[i..i + |w|];
    }
  }

  lemma AtRight(a: string, b: string, i: int, w: string)
    ensures 0 <= i ==> (At(a + b, |a| + i, w) <==> At(b, i, w))
  {
    if 0 <= i && i + |w| <= |b| {
      assert (a + b)[|a| + i..|a| + i + |w|] == b[i..i + |w|];
    }
  }

  lemma AtSep(a: string, b: string, sep: char, i: int, w: string)
    requires Free(w, sep) && At(a + [sep] + b, i, w)
    ensures i + |w| <= |a| || i > |a|
  {
    var s := a + [sep] + b;
    assert s[|a|] == sep;
    assert s[i..i + |w|] == w;
  }

  /** A word without the separator never straddles it. */
  lemma ContainsAcrossSep(a: string, b: string, sep: char, w: string)
    requires Free(w, sep)
    ensures Contains(a + [sep] + b, w) <==> Contains(a, w) || Contains(b, w)
  {
    var s := a + [sep] + b;
    Assoc(a, [sep], b);
    if Contains(s, w) {
      var i :| 0 <= i <= |s| && At(s, i, w);
      AtSep(a, b, sep, i, w);
      AtLeft(a, [sep] + b, i, w);
      AtRight(a + [sep], b, i - |a| - 1, w);
    }
    if Contains(a, w) {
      var i :| 0 <= i <= |a| && At(a, i, w);
      AtLeft(a, [sep] + b, i, w);
    }
    if Contains(b, w) {
      var i :| 0 <= i <= |b| && At(b, i, w);
      AtRight(a + [sep], b, i, w);
    }
  }

  predicate SomeContains(parts: seq<string>, w: string) {
    exists k | 0 <= k < |parts| :: Contains(parts[k], w)
  }

  /** A separator-free word occurs in a joined line exactly when it occurs in one of its fields. */
  lemma {:induction false} ContainsJoin(parts: seq<string>, sep: char, w: string)
    requires |parts| >= 1 && Free(w, sep)
    ensures Contains(Join(parts, sep), w) <==> SomeContains(parts, w)
  {
    if |parts| > 1 {
      ContainsAcrossSep(parts[0], Join(parts[1..], sep), sep, w);
      ContainsJoin(parts[1..], sep, w);
      if SomeContains(parts[1..], w) {
        var k :| 0 <= k < |parts[1..]| && Contains(parts[1..][k], w);
        assert Contains(parts[k + 1], w);
      }
      if SomeContains(parts, w) && !Contains(parts[0], w) {
        var k :| 0 <= k < |parts| && Contains(parts[k], w);
        assert Contains(parts[1..][k - 1], w);
      }
    }
  }

  /** A number contains no word that starts with something other than a digit. */
  lemma DecimalContainsNoWord(n: nat, w: string)
    requires w != "" && !IsDigit(w[0])
    ensures !Contains(Decimal(n), w)
  {
    DecimalRoundTrip(n);
    var s := Decimal(n);
    forall i | 0 <= i <= |s|
      ensures !At(s, i, w)
    {
      if At(s, i, w) {
        assert false;
      }
    }
  }

  // ---------------------------------------------------------------- counting words

  /** `s.count(w)`: non-overlapping occurrences, from the left. */
  function Count(s: string, w: string): nat
    requires w != ""
  {
    if |s| < |w| then 0
    else if s[..|w|] == w then 1 + Count(s[|w|..], w)
    else Count(s[1..], w)
  }

  /** Counting a word without the separator counts it field by field. */
  lemma {:induction false} CountAcrossSep(a: string, b: string, sep: char, w: string)
    requires w != "" && Free(w, sep)
    ensures Count(a + [sep] + b, w) == Count(a, w) + Count(b, w)
    decreases |a|
  {
    var s := a + [sep] + b;
    if |a| < |w| {
      if |s| >= |w| {
        assert s[..|w|][|a|] == sep;
        assert s[..|w|] != w;
        if a == "" {
          assert s[1..] == b;
        } else {
          assert s[1..] == a[1..] + [sep] + b;
          CountAcrossSep(a[1..], b, sep, w);
        }
      }
    } else {
      assert s[..|w|] == a[..|w|];
      if a[..|w|] == w {
        assert s[|w|..] == a[|w|..] + [sep] + b;
        CountAcrossSep(a[|w|..], b, sep, w);
      } else {
        assert s[1..] == a[1..] + [sep] + b;
        CountAcrossSep(a[1..], b, sep, w);
      }
    }
  }

  lemma {:induction false} CountAbsent(s: string, w: string)
    requires w != "" && !Contains(s, w)
    ensures Count(s, w) == 0
  {
    if |s| >= |w| {
      if s[..|w|] == w {
        assert At(s, 0, w);
        assert false;
      }
      forall i | 0 <= i <= |s[1..]|
        ensures !At(s[1..], i, w)
      {
        if At(s[1..], i, w) {
          assert s[1..][i..i + |w|] == s[i + 1..i + 1 + |w|];
          assert At(s, i + 1, w);
        }
      }
      CountAbsent(s[1..], w);
    }
  }

  lemma CountSelf(w: string)
    requires w != ""
    ensures Count(w, w) == 1
  {
    assert w[..|w|] == w;
    assert w[|w|..] == "";
  }

  /** The total of a word over a list of fields. */
  function CountAll(parts: seq<string>, w: string): nat
    requires w != ""
  {
    if parts == [] then 0 else Count(parts[0], w) + CountAll(parts[1..], w)
  }

  lemma {:induction false} CountJoin(parts: seq<string>, sep: char, w: string)
    requires w != "" && Free(w, sep)
    ensures Count(Join(parts, sep), w) == CountAll(parts, w)
  {
    if |parts| == 0 {
    } else if |parts| == 1 {
      assert parts[1..] == [];
    } else {
      CountAcrossSep(parts[0], Join(parts[1..], sep), sep, w);
      CountJoin(parts[1..], sep, w);
    }
  }

  // ---------------------------------------------------------------- the text after the first separator

  /** `s.split(sep, 1)[1]`; `None` is `IndexError`. */
  function AfterFirst(s: string, sep: char): Option<string> {
    if s == "" then None
    else if s[0] == sep then Some(s[1..])
    else AfterFirst(s[1..], sep)
  }

  lemma {:induction false} AfterFirstSep(a: string, b: string, sep: char)
    requires Free(a, sep)
    ensures AfterFirst(a + [sep] + b, sep) == Some(b)
  {
    var s := a + [sep] + b;
    if a == "" {
      assert s[1..] == b;
    } else {
      assert s[1..] == a[1..] + [sep] + b;
      AfterFirstSep(a[1..], b, sep);
    }
  }

  /** Finding a compound word finds both of its parts. */
  lemma ContainsParts(s: string, a: string, b: string)
    requires Contains(s, a + b)
    ensures Contains(s, a) && Contains(s, b)
  {
    var i :| 0 <= i <= |s| && At(s, i, a + b);
    assert s[i..i + |a|] == s[i..i + |a + b|][..|a|] == a;
    assert At(s, i, a);
    assert s[i + |a|..i + |a| + |b|] == s[i..i + |a + b|][|a|..] == b;
    assert At(s, i + |a|, b);
  }

  lemma ContainsMiddle(a: string, w: string, b: string)
    ensures Contains(a + (w + b), w)
  {
    var s := a + (w + b);
    assert s[|a|..|a| + |w|] == w;
    assert At(s, |a|, w);
  }

  lemma Assoc<T>(a: seq<T>, b: seq<T>, c: seq<T>)
    ensures (a + b) + c == a + (b + c)
  {
  }
}
