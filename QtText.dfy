/** The pieces of Qt's string and file-name handling that the GUI code relies
    on: QString::compare, QString::split, QString::toInt and QFileInfo's
    baseName/suffix. Strings are sequences of UTF-16 code units, as in QString. */
module QtText {
  import opened Wrappers

  // ---------------------------------------------------------------------------
  // QString::compare
  // ---------------------------------------------------------------------------

  /** QString::compare: negative, zero or positive as `a` sorts before, equal
      to, or after `b`, code unit by code unit. */
  function Compare(a: string, b: string): (r: int)
    ensures r == 0 <==> a == b
  {
    if a == [] && b == [] then 0
    else if a == [] then -1
    else if b == [] then 1
    else if a[0] < b[0] then -1
    else if a[0] > b[0] then 1
    else Compare(a[1..], b[1..])
  }

  // ---------------------------------------------------------------------------
  // QString::split (empty parts kept) and its inverse
  // ---------------------------------------------------------------------------

  /** QString::split(sep) with empty parts kept: the text between consecutive
      separators, always at least one part. */
  function Split(s: string, sep: char): (parts: seq<string>)
    ensures |parts| >= 1
    ensures forall i :: 0 <= i < |parts| ==> sep !in parts[i]
    ensures |parts| == 1 <==> sep !in s
  {
    if s == [] then [""]
    else
      var rest := Split(s[1..], sep);
      if s[0] == sep then [""] + rest
      else [[s[0]] + rest[0]] + rest[1..]
  }

  /** QStringList::join(sep). */
  function Join(parts: seq<string>, sep: char): string
    requires |parts| >= 1
  {
    if |parts| == 1 then parts[0]
    else parts[0] + [sep] + Join(parts[1..], sep)
  }

  /** Splitting loses nothing: joining the parts again gives back the text. */
  lemma {:induction false} JoinSplit(s: string, sep: char)
    ensures Join(Split(s, sep), sep) == s
  {
    if s != [] {
      JoinSplit(s[1..], sep);
      var rest := Split(s[1..], sep);
      if s[0] == sep {
        assert Split(s, sep) == [""] + rest;
        assert ([""] + rest)[1..] == rest;
      } else {
        var parts := [[s[0]] + rest[0]] + rest[1..];
        assert Split(s, sep) == parts;
        if |rest| == 1 {
          assert parts == [[s[0]] + rest[0]];
        } else {
          assert parts[1..] == rest[1..];
          assert Join(rest, sep) == rest[0] + [sep] + Join(rest[1..], sep);
        }
      }
    }
  }

  /** Splitting a joined list of separator-free parts gives the parts back. */
  lemma {:induction false} SplitJoin(parts: seq<string>, sep: char)
    requires |parts| >= 1
    requires forall i :: 0 <= i < |parts| ==> sep !in parts[i]
    ensures Split(Join(parts, sep), sep) == parts
  {
    if |parts| == 1 {
      SplitOfSeparatorFree(parts[0], sep);
    } else {
      SplitJoin(parts[1..], sep);
      SplitAppend(parts[0], Join(parts[1..], sep), sep);
      assert [parts[0]] + parts[1..] == parts;
    }
  }

  /** Text without a separator splits into itself. */
  lemma {:induction false} SplitOfSeparatorFree(s: string, sep: char)
    requires sep !in s
    ensures Split(s, sep) == [s]
  {
    if s != [] {
      SplitOfSeparatorFree(s[1..], sep);
      assert [s[0]] + s[1..] == s;
    }
  }

  /** Splitting `a + sep + b`, where `a` has no separator, yields `a` followed
      by the parts of `b`. */
  lemma {:induction false} SplitAppend(a: string, b: string, sep: char)
    requires sep !in a
    ensures Split(a + [sep] + b, sep) == [a] + Split(b, sep)
  {
    if a == [] {
      assert a + [sep] + b == [sep] + b;
      assert ([sep] + b)[1..] == b;
    } else {
      SplitAppend(a[1..], b, sep);
      assert (a + [sep] + b)[1..] == a[1..] + [sep] + b;
      assert [a[0]] + a[1..] == a;
    }
  }

  // ---------------------------------------------------------------------------
  // Decimal digits, QString::toInt and QString::number
  // ---------------------------------------------------------------------------

  predicate IsDigit(c: char) {
    '0' <= c <= '9'
  }

  predicate AllDigits(s: string) {
    forall i :: 0 <= i < |s| ==> IsDigit(s[i])
  }

  const MinInt32: int := -0x8000_0000
  const MaxInt32: int := 0x7fff_ffff

  predicate IsInt32(n: int) {
    MinInt32 <= n <= MaxInt32
  }

  /** The value of a run of decimal digits, most significant first. */
  function DigitsValue(s: string): nat
    requires AllDigits(s)
  {
    if s == [] then 0
    else DigitsValue(s[..|s| - 1]) * 10 + (s[|s| - 1] as int - '0' as int)
  }

  function DigitChar(d: nat): (c: char)
    requires d < 10
    ensures IsDigit(c)
  {
    (d + '0' as int) as char
  }

  /** QString::number for a non-negative value: its decimal digits, without
      leading zeros. */
  function NatToString(n: nat): (s: string)
    ensures |s| >= 1 && AllDigits(s)
  {
    if n < 10 then [DigitChar(n)] else NatToString(n / 10) + [DigitChar(n % 10)]
  }

  /** QString::number for any integer. */
  function IntToString(n: int): (s: string)
    ensures |s| >= 1
  {
    if n < 0 then "-" + NatToString(-n) else NatToString(n)
  }

  /** QString::toInt(&ok) in base 10: an optional sign and at least one digit,
      whose value fits a 32-bit int; None where Qt reports ok == false. */
  function ParseInt(s: string): (r: Option<int>)
    ensures r.Some? ==> IsInt32(r.value)
  {
    var neg := |s| > 0 && s[0] == '-';
    var body := if |s| > 0 && (s[0] == '-' || s[0] == '+') then s[1..] else s;
    if body == [] || !AllDigits(body) then None
    else
      var magnitude: int := DigitsValue(body);
      var v := if neg then 0 - magnitude else magnitude;
      if IsInt32(v) then Some(v) else None
  }

  /** QString::toInt(&ok) with the flag ignored: 0 when the text is not a
      32-bit decimal integer. */
  function ToIntOrZero(s: string): (r: int)
    ensures ParseInt(s).Some? ==> r == ParseInt(s).value
    ensures ParseInt(s).None? ==> r == 0
  {
    ParseInt(s).GetOr(0)
  }

  /** The digits QString::number writes read back as the same value. */
  lemma {:induction false} NatToStringValue(n: nat)
    ensures DigitsValue(NatToString(n)) == n
  {
    if n >= 10 {
      NatToStringValue(n / 10);
      var s := NatToString(n);
      assert s[..|s| - 1] == NatToString(n / 10);
    }
  }

  /** Writing a 32-bit value as text and parsing it back restores it. */
  lemma IntToStringRoundTrip(n: int)
    requires IsInt32(n)
    ensures ParseInt(IntToString(n)) == Some(n)
  {
    var s := IntToString(n);
    if n < 0 {
      var digits := NatToString(-n);
      NatToStringValue(-n);
      assert s == "-" + digits;
      assert s[0] == '-';
      assert s[1..] == digits;
    } else {
      var digits := NatToString(n);
      NatToStringValue(n);
      assert s == digits;
      assert IsDigit(s[0]);
    }
  }

  // ---------------------------------------------------------------------------
  // QFileInfo: file name, base name and suffix
  // ---------------------------------------------------------------------------

  /** The text after the last occurrence of `c`, or all of `s` if there is none. */
  function AfterLast(s: string, c: char): (r: string)
    ensures c !in r
    ensures |r| <= |s|
  {
    if s == [] then []
    else if s[|s| - 1] == c then []
    else AfterLast(s[..|s| - 1], c) + [s[|s| - 1]]
  }

  /** The text before the first occurrence of `c`, or all of `s` if there is none. */
  function BeforeFirst(s: string, c: char): (r: string)
    ensures c !in r
    ensures |r| <= |s| && r == s[..|r|]
  {
    if s == [] then []
    else if s[0] == c then []
    else [s[0]] + BeforeFirst(s[1..], c)
  }

  /** QFileInfo::fileName: the path's last component. */
  function FileName(path: string): string {
    AfterLast(path, '/')
  }

  /** QFileInfo::suffix: the text after the file name's last '.', empty when
      there is no '.'. */
  function Suffix(path: string): string {
    var name := FileName(path);
    if '.' in name then AfterLast(name, '.') else ""
  }

  /** QFileInfo::baseName: the file name up to its first '.'. */
  function BaseName(path: string): string {
    BeforeFirst(FileName(path), '.')
  }

  /** No suffix ever equals ".ang": a suffix never holds a '.'. So the test
      `suffix().compare(".ang")` is nonzero for every file. */
  lemma SuffixNeverDotAng(path: string)
    ensures Compare(Suffix(path), ".ang") != 0
  {
    assert '.' !in Suffix(path);
    assert ".ang"[0] == '.';
  }

  // ---------------------------------------------------------------------------
  // QVariant: booleans stored as text
  // ---------------------------------------------------------------------------

  /** QChar::toLower on the ASCII letters; other characters are kept. */
  function LowerChar(c: char): char {
    if 'A' <= c <= 'Z' then (c as int - 'A' as int + 'a' as int) as char else c
  }

  function Lower(s: string): (r: string)
    ensures |r| == |s|
  {
    seq(|s|, i requires 0 <= i < |s| => LowerChar(s[i]))
  }

  /** QVariant::toBool of a text: false for an empty text and for "0" or
      "false" in any letter case, true for everything else. */
  function ToBool(s: string): bool {
    var t := Lower(s);
    !(t == "" || t == "0" || t == "false")
  }

  /** QVariant(bool)::toString: the text a stored boolean reads back as. */
  function BoolText(b: bool): (s: string)
    ensures s != ""
  {
    if b then "true" else "false"
  }

  /** A stored boolean reads back as itself. */
  lemma BoolTextRoundTrip(b: bool)
    ensures ToBool(BoolText(b)) == b
  {
    if !b {
      assert Lower("false") == "false";
    } else {
      assert Lower("true") == "true";
    }
  }

  /** The letter case of "false" does not matter, and any other non-empty
      text, "0" apart, is true. */
  lemma ToBoolCases()
    ensures !ToBool("FALSE") && !ToBool("False") && !ToBool("0") && !ToBool("")
    ensures ToBool("1") && ToBool("yes") && ToBool("no")
  {
    assert Lower("FALSE") == "false";
    assert Lower("False") == "false";
    assert Lower("0") == "0";
    assert Lower("1") == "1";
    assert Lower("yes") == "yes";
    assert Lower("no") == "no";
  }
}
