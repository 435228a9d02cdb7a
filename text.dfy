/** String and number helpers that stand for the Python and JavaScript built-ins
    the diagram code relies on: str.strip, str.split, str.replace, str.isdigit,
    str.startswith, str.title, str.upper, int(), parseInt, f"{n:03d}" and
    decimal printing. Characters are compared as code points; only the ASCII
    whitespace characters and ASCII letters are treated specially. */
module Text {

  // ---------------------------------------------------------------------------
  // Characters
  // ---------------------------------------------------------------------------

  /** The ASCII whitespace characters: the space and the range from tab to
      carriage return (tab, line feed, vertical tab, form feed, carriage
      return). str.strip and parseInt also remove further Unicode spaces, which
      this model treats as ordinary characters. */
  predicate IsSpace(c: char) {
    c == ' ' || '\t' <= c <= '\r'
  }

  /** An ASCII decimal digit; str.isdigit() also accepts other Unicode digits. */
  predicate IsDigit(c: char) {
    '0' <= c <= '9'
  }

  function DigitValue(c: char): (d: nat)
    requires IsDigit(c)
    ensures d < 10
  {
    (c as int - '0' as int) as nat
  }

  function DigitChar(d: nat): (c: char)
    requires d < 10
    ensures IsDigit(c) && DigitValue(c) == d
  {
    (d + '0' as int) as char
  }

  predicate IsLower(c: char) { 'a' <= c <= 'z' }
  predicate IsUpper(c: char) { 'A' <= c <= 'Z' }
  predicate IsLetter(c: char) { IsLower(c) || IsUpper(c) }

  function ToUpperChar(c: char): char {
    if IsLower(c) then (c as int - 32) as char else c
  }

  function ToLowerChar(c: char): char {
    if IsUpper(c) then (c as int + 32) as char else c
  }

  // ---------------------------------------------------------------------------
  // Prefixes, whitespace, blank strings
  // ---------------------------------------------------------------------------

  /** str.startswith */
  predicate StartsWith(s: string, p: string) {
    |p| <= |s| && s[..|p|] == p
  }

  function TrimLeft(s: string): (r: string)
    ensures |r| <= |s|
    ensures r != [] ==> !IsSpace(r[0])
  {
    if s != [] && IsSpace(s[0]) then TrimLeft(s[1..]) else s
  }

  /** Only whitespace is removed from the left. */
  lemma {:induction false} TrimLeftRemovesSpaces(s: string)
    ensures forall i :: 0 <= i < |s| - |TrimLeft(s)| ==> IsSpace(s[i])
  {
    if s != [] && IsSpace(s[0]) {
      TrimLeftRemovesSpaces(s[1..]);
      assert forall i :: 1 <= i < |s| ==> s[i] == s[1..][i - 1];
    }
  }

  function TrimRight(s: string): (r: string)
    ensures |r| <= |s|
    ensures r != [] ==> !IsSpace(r[|r| - 1])
  {
    if s != [] && IsSpace(s[|s| - 1]) then TrimRight(s[..|s| - 1]) else s
  }

  /** Only whitespace is removed from the right. */
  lemma {:induction false} TrimRightRemovesSpaces(s: string)
    ensures forall i :: |TrimRight(s)| <= i < |s| ==> IsSpace(s[i])
  {
    if s != [] && IsSpace(s[|s| - 1]) {
      TrimRightRemovesSpaces(s[..|s| - 1]);
    }
  }

  /** str.strip() */
  function Strip(s: string): string {
    TrimRight(TrimLeft(s))
  }

  /** Python's `not s or s.strip() == ""`: the string is empty or all whitespace. */
  predicate IsBlank(s: string) {
    Strip(s) == ""
  }

  lemma {:induction false} TrimLeftIsSuffix(s: string)
    ensures TrimLeft(s) == s[|s| - |TrimLeft(s)|..]
  {
    if s != [] && IsSpace(s[0]) {
      TrimLeftIsSuffix(s[1..]);
    }
  }

  lemma BlankIffAllSpace(s: string)
    ensures IsBlank(s) <==> forall i :: 0 <= i < |s| ==> IsSpace(s[i])
  {
    TrimLeftIsSuffix(s);
    TrimLeftRemovesSpaces(s);
    TrimRightRemovesSpaces(TrimLeft(s));
  }

  // ---------------------------------------------------------------------------
  // Splitting, replacing, case
  // ---------------------------------------------------------------------------

  /** str.split(sep) for a one-character separator: always at least one part. */
  function Split(s: string, sep: char): (parts: seq<string>)
    ensures |parts| >= 1
  {
    if s == [] then [""]
    else
      var rest := Split(s[1..], sep);
      if s[0] == sep then [""] + rest
      else [[s[0]] + rest[0]] + rest[1..]
  }

  /** sep.join(parts) */
  function Join(parts: seq<string>, sep: char): string
    requires |parts| >= 1
  {
    if |parts| == 1 then parts[0] else parts[0] + [sep] + Join(parts[1..], sep)
  }

  /** Splitting and joining again gives back the string. */
  lemma {:induction false} SplitJoin(s: string, sep: char)
    ensures Join(Split(s, sep), sep) == s
  {
    if s != [] {
      SplitJoin(s[1..], sep);
      var rest := Split(s[1..], sep);
      if s[0] != sep {
        JoinExtendFirst(s[0], rest, sep);
      } else {
        JoinEmptyFirst(rest, sep);
      }
      assert [s[0]] + s[1..] == s;
    }
  }

  lemma JoinExtendFirst(c: char, parts: seq<string>, sep: char)
    requires |parts| >= 1
    ensures Join([[c] + parts[0]] + parts[1..], sep) == [c] + Join(parts, sep)
  {
    var q := [[c] + parts[0]] + parts[1..];
    if |parts| > 1 {
      assert q[1..] == parts[1..];
      calc {
        Join(q, sep);
        ([c] + parts[0]) + [sep] + Join(parts[1..], sep);
        [c] + (parts[0] + [sep] + Join(parts[1..], sep));
      }
    }
  }

  lemma JoinEmptyFirst(parts: seq<string>, sep: char)
    requires |parts| >= 1
    ensures Join([""] + parts, sep) == [sep] + Join(parts, sep)
  {
    assert ([""] + parts)[1..] == parts;
    assert Join([""] + parts, sep) == "" + [sep] + Join(parts, sep);
  }

  /** No part of a split holds the separator. */
  lemma {:induction false} SplitPartsFree(s: string, sep: char)
    ensures forall k :: 0 <= k < |Split(s, sep)| ==> sep !in Split(s, sep)[k]
  {
    if s != [] {
      SplitPartsFree(s[1..], sep);
      var rest := Split(s[1..], sep);
      var parts := Split(s, sep);
      if s[0] != sep {
        assert parts == [[s[0]] + rest[0]] + rest[1..];
        forall k | 0 <= k < |parts| ensures sep !in parts[k] {
          if k > 0 { assert parts[k] == rest[k]; }
          else { assert parts[0] == [s[0]] + rest[0]; }
        }
      } else {
        assert parts == [""] + rest;
      }
    }
  }

  /** Splitting `a + sep + b` splits `a` and `b` separately. */
  lemma {:induction false} SplitConcat(a: string, sep: char, b: string)
    requires sep !in a
    ensures Split(a + [sep] + b, sep) == [a] + Split(b, sep)
  {
    if a == [] {
      assert a + [sep] + b == [sep] + b;
      assert ([sep] + b)[1..] == b;
    } else {
      SplitConcat(a[1..], sep, b);
      assert (a + [sep] + b)[1..] == a[1..] + [sep] + b;
      assert [a[0]] + a[1..] == a;
    }
  }

  lemma {:induction false} SplitNoSep(a: string, sep: char)
    requires sep !in a
    ensures Split(a, sep) == [a]
  {
    if a != [] {
      SplitNoSep(a[1..], sep);
      assert [a[0]] + a[1..] == a;
    }
  }

  /** str.replace(pat, rep): every non-overlapping occurrence, left to right. */
  function ReplaceAll(s: string, pat: string, rep: string): string
    requires |pat| > 0
    decreases |s|
  {
    if |s| < |pat| then s
    else if s[..|pat|] == pat then rep + ReplaceAll(s[|pat|..], pat, rep)
    else [s[0]] + ReplaceAll(s[1..], pat, rep)
  }

  /** str.upper() restricted to ASCII letters. */
  function Upper(s: string): (r: string)
    ensures |r| == |s|
    ensures forall i :: 0 <= i < |s| ==> r[i] == ToUpperChar(s[i])
  {
    if s == [] then [] else [ToUpperChar(s[0])] + Upper(s[1..])
  }

  /** str.title() restricted to ASCII letters: a letter is upper-cased when the
      character before it is not a letter, and lower-cased otherwise. */
  function Title(s: string): (r: string)
    ensures |r| == |s|
  {
    TitleAfter(s, false)
  }

  function TitleAfter(s: string, prevLetter: bool): (r: string)
    ensures |r| == |s|
  {
    if s == [] then []
    else
      var c := if prevLetter then ToLowerChar(s[0]) else ToUpperChar(s[0]);
      [c] + TitleAfter(s[1..], IsLetter(s[0]))
  }

  // ---------------------------------------------------------------------------
  // Decimal numbers
  // ---------------------------------------------------------------------------

  /** str.isdigit() restricted to ASCII: non-empty and only digits. */
  predicate IsAllDigits(s: string) {
    |s| > 0 && forall i :: 0 <= i < |s| ==> IsDigit(s[i])
  }

  /** The value of a string of digits, read most significant first. */
  function DigitsValue(s: string): nat
    requires forall i :: 0 <= i < |s| ==> IsDigit(s[i])
  {
    if s == [] then 0 else DigitsValue(s[..|s| - 1]) * 10 + DigitValue(s[|s| - 1])
  }

  /** str(n) for a natural number: the shortest decimal representation. */
  function NatToString(n: nat): (s: string)
    ensures IsAllDigits(s)
  {
    if n < 10 then [DigitChar(n)] else NatToString(n / 10) + [DigitChar(n % 10)]
  }

  /** Decimal printing and reading are inverse. */
  lemma {:induction false} NatToStringValue(n: nat)
    ensures DigitsValue(NatToString(n)) == n
  {
    if n >= 10 {
      NatToStringValue(n / 10);
      var s := NatToString(n);
      assert s[..|s| - 1] == NatToString(n / 10);
    }
  }

  lemma NatToStringInjective(m: nat, n: nat)
    requires NatToString(m) == NatToString(n)
    ensures m == n
  {
    NatToStringValue(m);
    NatToStringValue(n);
  }

  /** f"{n:03d}" for a natural number: zero-padded to at least three digits. */
  function Pad3(n: nat): (s: string)
    ensures IsAllDigits(s) && |s| >= 3
  {
    var d := NatToString(n);
    if |d| >= 3 then d else if |d| == 2 then "0" + d else "00" + d
  }

  lemma LeadingZeros(s: string)
    requires forall i :: 0 <= i < |s| ==> IsDigit(s[i])
    ensures DigitsValue("0" + s) == DigitsValue(s)
    decreases |s|
  {
    if s != [] {
      var t := "0" + s;
      assert t[..|t| - 1] == "0" + s[..|s| - 1];
      LeadingZeros(s[..|s| - 1]);
    }
  }

  /** Zero padding does not change the value read back. */
  lemma Pad3Value(n: nat)
    ensures DigitsValue(Pad3(n)) == n
  {
    var d := NatToString(n);
    NatToStringValue(n);
    if |d| == 2 {
      LeadingZeros(d);
    } else if |d| < 2 {
      LeadingZeros(d);
      assert "00" + d == "0" + ("0" + d);
      LeadingZeros("0" + d);
    }
  }

  // ---------------------------------------------------------------------------
  // int() and parseInt
  // ---------------------------------------------------------------------------

  /** Digits in which single underscores may separate digits, as int() accepts. */
  predicate IsDigitGroups(s: string) {
    |s| > 0 && IsDigit(s[0]) && GroupsTail(s[1..])
  }

  /** What may follow a digit: more digits, each optionally preceded by one underscore. */
  predicate GroupsTail(s: string)
    decreases |s|
  {
    s == [] || (IsDigit(s[0]) && GroupsTail(s[1..]))
    || (|s| >= 2 && s[0] == '_' && IsDigit(s[1]) && GroupsTail(s[2..]))
  }

  /** The value of the digits of a string, underscores skipped. */
  function GroupsValue(s: string): nat {
    if s == [] then 0
    else if IsDigit(s[|s| - 1]) then GroupsValue(s[..|s| - 1]) * 10 + DigitValue(s[|s| - 1])
    else GroupsValue(s[..|s| - 1])
  }

  /** Python's int(s): surrounding whitespace, an optional sign, then digits
      (single underscores allowed between digits); None stands for ValueError. */
  function ParsePyInt(s: string): (r: Option<int>)
  {
    ParseSigned(Strip(s))
  }

  /** An optional sign followed by underscore-separated digit groups. */
  function ParseSigned(t: string): (r: Option<int>)
  {
    if t == [] then None
    else if t[0] == '-' then
      (match ParseGroups(t[1..]) case Some(v) => Some(-(v as int)) case None => None)
    else if t[0] == '+' then
      (match ParseGroups(t[1..]) case Some(v) => Some(v as int) case None => None)
    else
      (match ParseGroups(t) case Some(v) => Some(v as int) case None => None)
  }

  function ParseGroups(b: string): (r: Option<nat>)
  {
    if IsDigitGroups(b) then Some(GroupsValue(b)) else None
  }

  lemma {:induction false} GroupsValueOfDigits(s: string)
    requires forall i :: 0 <= i < |s| ==> IsDigit(s[i])
    ensures GroupsValue(s) == DigitsValue(s)
  {
    if s != [] {
      GroupsValueOfDigits(s[..|s| - 1]);
    }
  }

  lemma {:induction false} DigitsAreGroupsTail(s: string)
    requires forall i :: 0 <= i < |s| ==> IsDigit(s[i])
    ensures GroupsTail(s)
  {
    if s != [] {
      DigitsAreGroupsTail(s[1..]);
    }
  }

  lemma StripOfDigits(s: string)
    requires IsAllDigits(s)
    ensures Strip(s) == s
  {
    assert !IsSpace(s[0]);
    assert TrimLeft(s) == s;
    assert !IsSpace(s[|s| - 1]);
  }

  lemma ParsePyIntOfDigits(s: string)
    requires IsAllDigits(s)
    ensures ParsePyInt(s) == Some(DigitsValue(s))
  {
    StripOfDigits(s);
    DigitsAreGroupsTail(s[1..]);
    GroupsValueOfDigits(s);
    assert ParseGroups(s) == Some(DigitsValue(s));
    assert s[0] != '-' && s[0] != '+';
  }

  /** A printed natural number is read back by int(). */
  lemma ParsePyIntOfNat(n: nat)
    ensures ParsePyInt(NatToString(n)) == Some(n)
  {
    ParsePyIntOfDigits(NatToString(n));
    NatToStringValue(n);
  }

  /** The longest prefix made of digits. */
  function LeadingDigits(s: string): (r: string)
    ensures |r| <= |s| && r == s[..|r|]
    ensures forall i :: 0 <= i < |r| ==> IsDigit(r[i])
    ensures |r| < |s| ==> !IsDigit(s[|r|])
  {
    if s != [] && IsDigit(s[0]) then [s[0]] + LeadingDigits(s[1..]) else []
  }

  /** JavaScript's parseInt(s, 10): leading whitespace, an optional sign, then
      the longest run of digits; trailing characters are ignored. None stands
      for NaN. */
  function ParseJsInt(s: string): (r: Option<int>)
  {
    var t := TrimLeft(s);
    var neg := t != [] && t[0] == '-';
    var body := if t != [] && (t[0] == '-' || t[0] == '+') then t[1..] else t;
    var digits := LeadingDigits(body);
    if digits == [] then None
    else
      var v: int := DigitsValue(digits);
      Some(if neg then -v else v)
  }

  lemma LeadingDigitsOfDigits(s: string)
    requires forall i :: 0 <= i < |s| ==> IsDigit(s[i])
    ensures LeadingDigits(s) == s
  {
    if s != [] {
      LeadingDigitsOfDigits(s[1..]);
      assert [s[0]] + s[1..] == s;
    }
  }

  lemma {:induction false} LeadingDigitsConcat(s: string, t: string)
    requires forall i :: 0 <= i < |s| ==> IsDigit(s[i])
    requires t == [] || !IsDigit(t[0])
    ensures LeadingDigits(s + t) == s
  {
    if s == [] {
      assert s + t == t;
    } else {
      var u := s + t;
      assert u[0] == s[0] && IsDigit(u[0]);
      assert u[1..] == s[1..] + t;
      LeadingDigitsConcat(s[1..], t);
      calc {
        LeadingDigits(u);
        [u[0]] + LeadingDigits(u[1..]);
        [s[0]] + s[1..];
        s;
      }
    }
  }

  lemma ParseJsIntOfDigits(s: string, rest: string)
    requires IsAllDigits(s)
    requires rest == [] || !IsDigit(rest[0])
    ensures ParseJsInt(s + rest) == Some(DigitsValue(s))
  {
    var t := s + rest;
    assert t[0] == s[0];
    assert TrimLeft(t) == t;
    assert t[0] != '-' && t[0] != '+';
    LeadingDigitsConcat(s, rest);
  }

  /** parseInt reads back a printed natural number, whatever follows it. */
  lemma ParseJsIntOfNat(n: nat, rest: string)
    requires rest == [] || !IsDigit(rest[0])
    ensures ParseJsInt(NatToString(n) + rest) == Some(n)
  {
    ParseJsIntOfDigits(NatToString(n), rest);
    NatToStringValue(n);
  }

  datatype Option<+T> = None | Some(value: T)

  /** The value, else the default: Python's `dict.get(k, default)` and JavaScript's `a ?? b`. */
  function GetOr<T>(o: Option<T>, default: T): T {
    if o.Some? then o.value else default
  }
}
