/** The JavaScript string operations the storefront relies on, over `seq<char>`:
    `toLowerCase` (ASCII letters only), `includes`, `startsWith`, `split`,
    `String(n)` for integers and `Number.parseInt`. */
module Text {
  import opened Wrappers

  // ---------------------------------------------------------------- lowering

  function LowerChar(c: char): char {
    if 'A' <= c <= 'Z' then (c as int + 32) as char else c
  }

  /** `s.toLowerCase()`, restricted to the ASCII letters. */
  function Lower(s: string): (r: string)
    ensures |r| == |s|
    ensures forall i :: 0 <= i < |s| ==> r[i] == LowerChar(s[i])
    ensures forall i :: 0 <= i < |r| ==> !('A' <= r[i] <= 'Z')
  {
    seq(|s|, i requires 0 <= i < |s| => LowerChar(s[i]))
  }

  lemma LowerIdempotent(s: string)
    ensures Lower(Lower(s)) == Lower(s)
  {
    assert forall i :: 0 <= i < |s| ==> LowerChar(LowerChar(s[i])) == LowerChar(s[i]);
  }

  lemma LowerAppend(a: string, b: string)
    ensures Lower(a + b) == Lower(a) + Lower(b)
  {
    assert forall i :: 0 <= i < |a + b| ==> Lower(a + b)[i] == (Lower(a) + Lower(b))[i];
  }

  // ---------------------------------------------------------------- substrings

  /** `s.startsWith(p)` */
  predicate StartsWith(s: string, p: string) {
    |p| <= |s| && s[..|p|] == p
  }

  /** `s.includes(t)`: some suffix of `s` starts with `t`. */
  predicate Contains(s: string, t: string)
    decreases |s|
  {
    StartsWith(s, t) || (s != [] && Contains(s[1..], t))
  }

  /** `t` occurs in `s` starting at offset `i`. */
  predicate OccursAt(s: string, t: string, i: int) {
    0 <= i <= |s| - |t| && s[i..i + |t|] == t
  }

  /** `Contains` means: `t` occurs in `s` at some offset. */
  lemma {:induction false} ContainsIff(s: string, t: string)
    ensures Contains(s, t) <==> exists i :: OccursAt(s, t, i)
    decreases |s|
  {
    if StartsWith(s, t) {
      assert OccursAt(s, t, 0);
    } else if s != [] {
      ContainsIff(s[1..], t);
      if Contains(s[1..], t) {
        var j :| OccursAt(s[1..], t, j);
        assert s[j + 1..j + 1 + |t|] == s[1..][j..j + |t|];
        assert OccursAt(s, t, j + 1);
      }
      if exists i :: OccursAt(s, t, i) {
        var i :| OccursAt(s, t, i);
        assert i != 0;
        assert s[1..][i - 1..i - 1 + |t|] == s[i..i + |t|];
        assert OccursAt(s[1..], t, i - 1);
      }
    }
  }

  /** Every string contains the empty string. */
  lemma ContainsEmpty(s: string)
    ensures Contains(s, "")
  {
    assert StartsWith(s, "");
  }

  /** An occurrence survives adding text on either side. */
  lemma ContainsWithin(a: string, s: string, b: string, t: string)
    requires Contains(s, t)
    ensures Contains(a + s + b, t)
  {
    ContainsIff(s, t);
    var i :| OccursAt(s, t, i);
    assert (a + s + b)[|a| + i..|a| + i + |t|] == s[i..i + |t|];
    assert OccursAt(a + s + b, t, |a| + i);
    ContainsIff(a + s + b, t);
  }

  // ---------------------------------------------------------------- split / join

  /** `s.split(sep)` for a one-character separator: always at least one piece, and
      two adjacent separators give an empty piece between them. */
  function Split(s: string, sep: char): (r: seq<string>)
    ensures |r| >= 1
    decreases |s|
  {
    if s == [] then [""]
    else
      var rest := Split(s[1..], sep);
      if s[0] == sep then [""] + rest
      else [[s[0]] + rest[0]] + rest[1..]
  }

  /** `parts.join(sep)` */
  function Join(parts: seq<string>, sep: char): string
    decreases |parts|
  {
    if |parts| == 0 then ""
    else if |parts| == 1 then parts[0]
    else parts[0] + [sep] + Join(parts[1..], sep)
  }

  /** Joining the pieces back with the separator gives the original string. */
  lemma {:induction false} SplitJoin(s: string, sep: char)
    ensures Join(Split(s, sep), sep) == s
    decreases |s|
  {
    if s != [] {
      var rest := Split(s[1..], sep);
      SplitJoin(s[1..], sep);
      if s[0] == sep {
        assert Split(s, sep) == [""] + rest;
        assert ([""] + rest)[1..] == rest;
      } else {
        var parts := [[s[0]] + rest[0]] + rest[1..];
        assert Split(s, sep) == parts;
        if |rest| == 1 {
          assert Join(rest, sep) == rest[0];
        } else {
          assert parts[1..] == rest[1..];
          assert Join(rest, sep) == rest[0] + [sep] + Join(rest[1..], sep);
        }
      }
    }
  }

  /** No piece contains the separator. */
  lemma {:induction false} SplitPiecesFree(s: string, sep: char)
    ensures forall k :: 0 <= k < |Split(s, sep)| ==> sep !in Split(s, sep)[k]
    decreases |s|
  {
    if s != [] {
      SplitPiecesFree(s[1..], sep);
    }
  }

  /** A string without the separator is a single piece. */
  lemma {:induction false} SplitNoSep(s: string, sep: char)
    requires sep !in s
    ensures Split(s, sep) == [s]
    decreases |s|
  {
    if s != [] {
      assert sep !in s[1..];
      SplitNoSep(s[1..], sep);
      assert [s[0]] + s[1..] == s;
    }
  }

  /** One step of `Split`: the first character either ends the first piece or
      joins it. */
  lemma SplitCons(c: char, t: string, sep: char)
    ensures Split([c] + t, sep) ==
      if c == sep then [""] + Split(t, sep) else [[c] + Split(t, sep)[0]] + Split(t, sep)[1..]
  {
    assert ([c] + t)[0] == c && ([c] + t)[1..] == t;
  }

  /** Extending the first piece commutes with appending more pieces. */
  lemma ExtendFirstPiece(c: char, left: seq<string>, right: seq<string>)
    requires |left| >= 1
    ensures [[c] + (left + right)[0]] + (left + right)[1..] == [[c] + left[0]] + left[1..] + right
  {
    assert (left + right)[0] == left[0];
    assert (left + right)[1..] == left[1..] + right;
  }

  /** Putting a character in front of two strings keeps their pieces related. */
  lemma SplitAroundStep(c: char, u: string, t: string, right: seq<string>, sep: char)
    requires Split(t, sep) == Split(u, sep) + right
    ensures Split([c] + t, sep) == Split([c] + u, sep) + right
  {
    var st, su := Split(t, sep), Split(u, sep);
    SplitCons(c, t, sep);
    SplitCons(c, u, sep);
    if c == sep {
      assert Split([c] + t, sep) == [""] + st;
      assert Split([c] + u, sep) == [""] + su;
    } else {
      assert Split([c] + t, sep) == [[c] + st[0]] + st[1..];
      assert Split([c] + u, sep) == [[c] + su[0]] + su[1..];
      ExtendFirstPiece(c, su, right);
    }
  }

  /** Splitting at a separator splits each side on its own. */
  lemma {:induction false} SplitAround(a: string, b: string, sep: char)
    ensures Split(a + [sep] + b, sep) == Split(a, sep) + Split(b, sep)
    decreases |a|
  {
    if a == [] {
      assert a + [sep] + b == [sep] + b;
      SplitCons(sep, b, sep);
    } else {
      var t := a[1..] + [sep] + b;
      SplitAround(a[1..], b, sep);
      SplitAroundStep(a[0], a[1..], t, Split(b, sep), sep);
      assert a + [sep] + b == [a[0]] + t;
      assert a == [a[0]] + a[1..];
    }
  }

  /** Lowering creates no space and removes none. */
  lemma LowerKeepsSpaces(s: string)
    ensures ' ' in Lower(s) <==> ' ' in s
  {
    if ' ' in s {
      var i :| 0 <= i < |s| && s[i] == ' ';
      assert Lower(s)[i] == ' ';
    }
    if ' ' in Lower(s) {
      var i :| 0 <= i < |s| && Lower(s)[i] == ' ';
      assert s[i] == ' ';
    }
  }

  // ---------------------------------------------------------------- numbers

  predicate IsDigit(c: char) {
    '0' <= c <= '9'
  }

  function DigitChar(d: nat): char
    requires d < 10
  {
    ('0' as int + d) as char
  }

  /** `String(n)` for a natural number: its decimal digits, no leading zeros. */
  function NatToString(n: nat): (r: string)
    ensures |r| >= 1
    ensures forall i :: 0 <= i < |r| ==> IsDigit(r[i])
  {
    if n < 10 then [DigitChar(n)] else NatToString(n / 10) + [DigitChar(n % 10)]
  }

  /** The value of a digit character; other characters count as 0. */
  function DigitValue(c: char): (d: nat)
    ensures d < 10
    ensures IsDigit(c) ==> DigitChar(d) == c
  {
    if IsDigit(c) then c as int - '0' as int else 0
  }

  /** The value of a string of digits, read left to right. */
  function DigitsValue(d: string): nat {
    if d == [] then 0
    else DigitsValue(d[..|d| - 1]) * 10 + DigitValue(d[|d| - 1])
  }

  /** The longest prefix of `s` made of digits. */
  function LeadingDigits(s: string): string {
    if s == [] || !IsDigit(s[0]) then "" else [s[0]] + LeadingDigits(s[1..])
  }

  /** `LeadingDigits(s)` is a prefix of `s`, all digits, and stops at the first
      character that is not one. */
  lemma {:induction false} LeadingDigitsLongest(s: string)
    ensures |LeadingDigits(s)| <= |s| && LeadingDigits(s) == s[..|LeadingDigits(s)|]
    ensures forall i :: 0 <= i < |LeadingDigits(s)| ==> IsDigit(LeadingDigits(s)[i])
    ensures |LeadingDigits(s)| < |s| ==> !IsDigit(s[|LeadingDigits(s)|])
    decreases |s|
  {
    if s != [] && IsDigit(s[0]) {
      LeadingDigitsLongest(s[1..]);
      var r := LeadingDigits(s[1..]);
      assert LeadingDigits(s) == [s[0]] + r;
      assert s[..|r| + 1] == [s[0]] + s[1..][..|r|];
    }
  }

  /** ECMAScript's StrWhiteSpaceChar (section 7.2 and 7.3 of ECMA-262): the white space
      characters (tab, vertical tab, form feed, space, no-break space, the byte order
      mark and the other Unicode "Zs" spaces) and the line terminators (LF, CR, line
      separator, paragraph separator). */
  predicate IsSpace(c: char) {
    c == '\t' || c == '\n' || c == '\U{000B}' || c == '\U{000C}' || c == '\r' || c == ' '
    || c == '\U{00A0}' || c == '\U{1680}' || ('\U{2000}' <= c <= '\U{200A}')
    || c == '\U{2028}' || c == '\U{2029}' || c == '\U{202F}' || c == '\U{205F}'
    || c == '\U{3000}' || c == '\U{FEFF}'
  }

  function TrimStart(s: string): string {
    if s != [] && IsSpace(s[0]) then TrimStart(s[1..]) else s
  }

  /** `TrimStart(s)` is a suffix of `s` that starts with anything but white space. */
  lemma {:induction false} TrimStartSuffix(s: string)
    ensures |TrimStart(s)| <= |s| && TrimStart(s) == s[|s| - |TrimStart(s)|..]
    ensures TrimStart(s) != [] ==> !IsSpace(TrimStart(s)[0])
    decreases |s|
  {
    if s != [] && IsSpace(s[0]) {
      TrimStartSuffix(s[1..]);
      var r := TrimStart(s[1..]);
      assert s[1..][|s| - 1 - |r|..] == s[|s| - |r|..];
    }
  }

  /** The text after an optional leading sign. */
  function Unsigned(t: string): string {
    if t != [] && (t[0] == '-' || t[0] == '+') then t[1..] else t
  }

  /** The signed value of white-space-free text: the sign, then the leading digits. */
  function ParseTrimmed(t: string): Option<int> {
    var digits := LeadingDigits(Unsigned(t));
    if digits == [] || t == [] then None
    else if t[0] == '-' then Some(-(DigitsValue(digits) as int))
    else Some(DigitsValue(digits))
  }

  /** `Number.parseInt(s)` in base ten: leading white space, an optional sign, then
      as many digits as there are; `None` stands for `NaN` (no digit at all). */
  function ParseInt(s: string): Option<int> {
    ParseTrimmed(TrimStart(s))
  }

  /** `parseInt` skips any white space character that comes first. */
  lemma ParseIntSkipsSpace(c: char, s: string)
    requires IsSpace(c)
    ensures ParseInt([c] + s) == ParseInt(s)
  {
    assert ([c] + s)[0] == c && ([c] + s)[1..] == s;
  }

  /** A no-break space is skipped as JavaScript skips it. */
  lemma ParseIntSkipsNoBreakSpace()
    ensures ParseInt("\U{00A0}2020") == Some(2020)
  {
    ParseIntSkipsSpace('\U{00A0}', "2020");
    assert "\U{00A0}2020" == ['\U{00A0}'] + "2020";
    ParseDigits("2020");
    assert DigitsValue("2020") == 2020 by {
      assert "2020"[..3] == "202" && "202"[..2] == "20" && "20"[..1] == "2" && "2"[..0] == "";
    }
  }

  /** So are a byte order mark and an ideographic space before a sign. */
  lemma ParseIntSkipsMarkAndIdeographicSpace()
    ensures ParseInt("\U{FEFF}\U{3000}-7") == Some(-7)
  {
    ParseIntSkipsSpace('\U{FEFF}', "\U{3000}-7");
    ParseIntSkipsSpace('\U{3000}', "-7");
    assert "\U{FEFF}\U{3000}-7" == ['\U{FEFF}'] + "\U{3000}-7";
    assert "\U{3000}-7" == ['\U{3000}'] + "-7";
    ParseNegative("7");
    assert DigitsValue("7") == 7 by { assert "7"[..0] == ""; }
  }

  /** A zero-width space is not white space, so the text has no leading digit. */
  lemma ParseIntStopsAtZeroWidthSpace()
    ensures ParseInt("\U{200B}1") == None
  {
  }

  lemma {:induction false} DigitsValueOfNatToString(n: nat)
    ensures DigitsValue(NatToString(n)) == n
  {
    var s := NatToString(n);
    if n < 10 {
      assert s[..0] == [];
    } else {
      DigitsValueOfNatToString(n / 10);
      assert s[..|s| - 1] == NatToString(n / 10);
    }
  }

  lemma LeadingDigitsOfDigits(d: string)
    requires forall i :: 0 <= i < |d| ==> IsDigit(d[i])
    ensures LeadingDigits(d) == d
  {
  }

  /** A run of digits with nothing before it reads back as its value. */
  lemma ParseDigits(d: string)
    requires d != [] && forall i :: 0 <= i < |d| ==> IsDigit(d[i])
    ensures ParseInt(d) == Some(DigitsValue(d) as int)
  {
    assert IsDigit(d[0]);
    var t := TrimStart(d);
    assert t == d;
    var u := Unsigned(t);
    assert u == d;
    LeadingDigitsOfDigits(d);
    var digits := LeadingDigits(u);
    assert digits == d;
    assert t[0] != '-';
    assert ParseTrimmed(t) == Some(DigitsValue(digits) as int);
  }

  /** `parseInt(String(n)) == n`: the decimal text of a natural number reads back as it. */
  lemma ParseNatToString(n: nat)
    ensures ParseInt(NatToString(n)) == Some(n)
  {
    ParseDigits(NatToString(n));
    DigitsValueOfNatToString(n);
  }

  /** `String(n)` for any integer: a minus sign before the digits of a negative. */
  function IntToString(n: int): (r: string)
    ensures |r| >= 1 && (r[0] == '-' || IsDigit(r[0]))
  {
    if n < 0 then "-" + NatToString(-n) else NatToString(n)
  }

  /** White space trimming stops at a minus sign, which `Unsigned` then drops. */
  lemma TrimNegative(d: string)
    ensures TrimStart("-" + d) == "-" + d
    ensures Unsigned("-" + d) == d
  {
    var s := "-" + d;
    assert s[0] == '-' && s[1..] == d;
  }

  /** Text that starts with a minus sign reads as its negated leading digits. */
  lemma ParseTrimmedMinus(t: string)
    requires t != [] && t[0] == '-' && LeadingDigits(t[1..]) != []
    ensures ParseTrimmed(t) == Some(-(DigitsValue(LeadingDigits(t[1..])) as int))
  {
  }

  /** A minus sign before a run of digits reads back as the negated digits. */
  lemma ParseNegative(d: string)
    requires d != [] && forall i :: 0 <= i < |d| ==> IsDigit(d[i])
    ensures ParseInt("-" + d) == Some(-(DigitsValue(d) as int))
  {
    var s := "-" + d;
    TrimNegative(d);
    LeadingDigitsOfDigits(d);
    assert s[0] == '-' && s[1..] == d;
    ParseTrimmedMinus(s);
  }

  /** `parseInt(String(n)) == n` for every integer. */
  lemma ParseIntToString(n: int)
    ensures ParseInt(IntToString(n)) == Some(n)
  {
    if n < 0 {
      var d := NatToString(-n);
      assert IntToString(n) == "-" + d;
      ParseNegative(d);
      DigitsValueOfNatToString(-n);
    } else {
      ParseNatToString(n);
    }
  }
}
