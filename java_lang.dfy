/**
  The parts of the Java platform that the modelled code relies on, given the meaning Java
  gives them: fixed-width integers, String.indexOf, String.trim, String.split,
  String.equalsIgnoreCase, string concatenation of an int, joining with a separator,
  and the contract assumed of GraphHopper's Helper.isEmpty.
*/
module JavaLang {
  import opened Wrappers

  /** A java.lang.String reference; None is null. */
  type JString = Option<string>

  const TWO_31: int := 0x8000_0000
  const TWO_63: int := 0x8000_0000_0000_0000

  /** A Java int. */
  type Int32 = x: int | -TWO_31 <= x < TWO_31

  /** A Java long. */
  type Int64 = x: int | -TWO_63 <= x < TWO_63

  /** The value a long takes after an addition whose exact result is x (two's-complement wrap-around). */
  function WrapInt64(x: int): (r: Int64)
    ensures -TWO_63 <= x < TWO_63 ==> r == x
  {
    (x + TWO_63) % (2 * TWO_63) - TWO_63
  }

  /** Adding to a wrapped long and wrapping again is the wrapped exact sum. */
  lemma WrapInt64Add(x: int, y: int)
    ensures WrapInt64(WrapInt64(x) + y) == WrapInt64(x + y)
  {
    var a := x + TWO_63;
    ModuloAddMultiple(a % 0x1_0000_0000_0000_0000 + y, a / 0x1_0000_0000_0000_0000);
  }

  /** Adding a multiple of 2^64 does not change the remainder modulo 2^64. */
  lemma ModuloAddMultiple(z: int, q: int)
    ensures (q * 0x1_0000_0000_0000_0000 + z) % 0x1_0000_0000_0000_0000 == z % 0x1_0000_0000_0000_0000
  {
  }

  // ---------------------------------------------------------------------------------------
  // String.indexOf(char)

  /** The index of the first occurrence of c in s, or -1 when there is none. */
  function IndexOf(s: string, c: char): (r: int)
    ensures -1 <= r < |s|
    ensures r == -1 <==> c !in s
    ensures 0 <= r ==> s[r] == c && c !in s[..r]
  {
    if |s| == 0 then -1
    else if s[0] == c then 0
    else
      var k := IndexOf(s[1..], c);
      if k == -1 then -1
      else
        assert s[..k + 1] == [s[0]] + s[1..][..k];
        k + 1
  }

  /** indexOf(c) > 0 holds exactly when c occurs in s but not as its first character. */
  lemma IndexOfPositive(s: string, c: char)
    ensures IndexOf(s, c) > 0 <==> (|s| > 0 && s[0] != c && c in s)
  {
    if |s| > 0 && s[0] != c && c in s {
      assert IndexOf(s, c) != 0;
    }
  }

  // ---------------------------------------------------------------------------------------
  // String.trim()

  /** String.trim() removes every leading and trailing character whose code is at most U+0020. */
  predicate IsTrimmedAway(c: char) {
    c <= ' '
  }

  /** A string that trim() reduces to the empty string. */
  predicate IsBlank(s: string) {
    forall i :: 0 <= i < |s| ==> IsTrimmedAway(s[i])
  }

  function TrimLeading(s: string): (r: string)
    ensures |r| <= |s| && r == s[|s| - |r|..]
    ensures r == [] || !IsTrimmedAway(r[0])
    ensures forall i :: 0 <= i < |s| - |r| ==> IsTrimmedAway(s[i])
  {
    if |s| > 0 && IsTrimmedAway(s[0]) then TrimLeading(s[1..]) else s
  }

  function TrimTrailing(s: string): (r: string)
    ensures |r| <= |s| && r == s[..|r|]
    ensures r == [] || !IsTrimmedAway(r[|r| - 1])
    ensures forall i :: |r| <= i < |s| ==> IsTrimmedAway(s[i])
  {
    if |s| > 0 && IsTrimmedAway(s[|s| - 1]) then TrimTrailing(s[..|s| - 1]) else s
  }

  /** String.trim(). */
  function Trim(s: string): string {
    TrimTrailing(TrimLeading(s))
  }

  /** trim() keeps a contiguous run of s: it neither adds characters nor reorders them. */
  lemma TrimIsSlice(s: string)
    ensures exists i, j :: 0 <= i <= j <= |s| && Trim(s) == s[i..j]
  {
    var l := TrimLeading(s);
    var i := |s| - |l|;
    var t := TrimTrailing(l);
    var j := i + |t|;
    assert l == s[i..];
    assert t == l[..|t|];
    assert s[i..][..|t|] == s[i..j];
  }

  /** A character that s does not contain is not in trim(s) either. */
  lemma TrimKeepsAbsent(s: string, c: char)
    requires c !in s
    ensures c !in Trim(s)
  {
    TrimIsSlice(s);
  }

  /** trim() yields the empty string exactly for blank strings, and never has blank ends. */
  lemma TrimBlank(s: string)
    ensures Trim(s) == "" <==> IsBlank(s)
    ensures Trim(s) != "" ==> !IsTrimmedAway(Trim(s)[0]) && !IsTrimmedAway(Trim(s)[|Trim(s)| - 1])
  {
  }

  /** trim() leaves alone a string whose first and last characters are not trimmed away. */
  lemma TrimUntrimmable(s: string)
    requires s != [] && !IsTrimmedAway(s[0]) && !IsTrimmedAway(s[|s| - 1])
    ensures Trim(s) == s
  {
  }

  /** trim() drops the one leading space in front of a string that needs no trimming. */
  lemma TrimLeadingSpace(s: string)
    requires s != [] && !IsTrimmedAway(s[0]) && !IsTrimmedAway(s[|s| - 1])
    ensures Trim(" " + s) == s
  {
    assert (" " + s)[1..] == s;
  }

  // ---------------------------------------------------------------------------------------
  // String.split and joining

  /** Every field of s between occurrences of sep, empty fields included. */
  function SplitFields(s: string, sep: char): (r: seq<string>)
    ensures |r| >= 1
    ensures forall i :: 0 <= i < |r| ==> sep !in r[i]
    decreases |s|
  {
    var k := IndexOf(s, sep);
    if k < 0 then [s] else [s[..k]] + SplitFields(s[k + 1..], sep)
  }

  /** Removes the empty fields at the end, as split does when its limit is zero. */
  function DropTrailingEmpty(fields: seq<string>): (r: seq<string>)
    ensures |r| <= |fields| && r == fields[..|r|]
    ensures r == [] || r[|r| - 1] != ""
    ensures forall i :: |r| <= i < |fields| ==> fields[i] == ""
  {
    if |fields| > 0 && fields[|fields| - 1] == "" then DropTrailingEmpty(fields[..|fields| - 1])
    else fields
  }

  /**
    s.split(String.valueOf(sep)) for a separator that is not a regular-expression
    metacharacter: a string without sep is its own single field (even the empty string),
    otherwise every field is kept except the empty ones at the end.
  */
  function Split(s: string, sep: char): seq<string> {
    if sep !in s then [s] else DropTrailingEmpty(SplitFields(s, sep))
  }

  /** No field that split returns contains the separator. */
  lemma SplitFieldsAreSeparatorFree(s: string, sep: char)
    ensures forall i :: 0 <= i < |Split(s, sep)| ==> sep !in Split(s, sep)[i]
  {
    if sep in s {
      var fs := SplitFields(s, sep);
      var r := DropTrailingEmpty(fs);
      forall i | 0 <= i < |r| ensures sep !in r[i] {
        assert r[i] == fs[i];
      }
    }
  }

  /** The parts, separated by sep. */
  function Join(sep: string, parts: seq<string>): string {
    if |parts| == 0 then ""
    else if |parts| == 1 then parts[0]
    else parts[0] + sep + Join(sep, parts[1..])
  }

  /** Appending a part to a non-empty list appends the separator and the part. */
  lemma {:induction false} JoinSnoc(sep: string, parts: seq<string>, p: string)
    requires |parts| >= 1
    ensures Join(sep, parts + [p]) == Join(sep, parts) + sep + p
  {
    if |parts| > 1 {
      assert (parts + [p])[1..] == parts[1..] + [p];
      JoinSnoc(sep, parts[1..], p);
    }
  }

  /**
    One step of the loop that appends parts[i] and, unless it is the last part, the
    separator: the text built so far is the join of the parts so far, followed by the
    separator when another part will follow.
  */
  lemma {:induction false} JoinLoopStep(sep: string, parts: seq<string>, i: nat, acc: string)
    requires i < |parts|
    requires acc == Join(sep, parts[..i]) + (if 0 < i then sep else "")
    ensures acc + parts[i] + (if i < |parts| - 1 then sep else "") ==
            Join(sep, parts[..i + 1]) + (if i + 1 < |parts| then sep else "")
  {
    JoinPrefixStep(sep, parts, i);
  }

  /** A join of a first part and at least one more. */
  lemma JoinCons(sep: string, p: string, rest: seq<string>)
    requires |rest| >= 1
    ensures Join(sep, [p] + rest) == p + sep + Join(sep, rest)
  {
    assert ([p] + rest)[1..] == rest;
  }

  /** The join of the first i + 1 parts extends the join of the first i parts. */
  lemma JoinPrefixStep(sep: string, parts: seq<string>, i: nat)
    requires i < |parts|
    ensures Join(sep, parts[..i + 1]) == (if i == 0 then parts[0] else Join(sep, parts[..i]) + sep + parts[i])
  {
    assert parts[..i + 1] == parts[..i] + [parts[i]];
    if i > 0 {
      JoinSnoc(sep, parts[..i], parts[i]);
    }
  }

  /** sep occurs in a join of at least two parts. */
  lemma JoinContainsSeparator(sep: char, parts: seq<string>)
    requires |parts| >= 2
    ensures sep in Join([sep], parts)
  {
    assert Join([sep], parts)[|parts[0]|] == sep;
  }

  /** A join contains sep only where it was put between parts. */
  lemma {:induction false} JoinSeparatorFree(sep: char, parts: seq<string>)
    requires |parts| <= 1
    requires forall i :: 0 <= i < |parts| ==> sep !in parts[i]
    ensures sep !in Join([sep], parts)
  {
  }

  /** Splitting a join of separator-free parts gives back every part. */
  lemma {:induction false} SplitFieldsOfJoin(parts: seq<string>, sep: char)
    requires |parts| >= 1
    requires forall i :: 0 <= i < |parts| ==> sep !in parts[i]
    ensures SplitFields(Join([sep], parts), sep) == parts
  {
    var s := Join([sep], parts);
    if |parts| > 1 {
      var p := parts[0];
      var rest := Join([sep], parts[1..]);
      assert s == p + [sep] + rest;
      var k := IndexOf(s, sep);
      assert s[|p|] == sep;
      assert k == |p|;
      assert s[..k] == p;
      assert s[k + 1..] == rest;
      SplitFieldsOfJoin(parts[1..], sep);
    }
  }

  /**
    split inverts a join of separator-free parts whose last part is not empty
    (a single part may be empty: a string without the separator is its own field).
  */
  lemma SplitOfJoin(parts: seq<string>, sep: char)
    requires |parts| >= 1
    requires forall i :: 0 <= i < |parts| ==> sep !in parts[i]
    requires |parts| == 1 || parts[|parts| - 1] != ""
    ensures Split(Join([sep], parts), sep) == parts
  {
    if |parts| == 1 {
      JoinSeparatorFree(sep, parts);
    } else {
      JoinContainsSeparator(sep, parts);
      SplitFieldsOfJoin(parts, sep);
    }
  }

  // ---------------------------------------------------------------------------------------
  // Decimal rendering of integers: "..." + i and Integer.toString(i)

  function DigitChar(d: int): char
    requires 0 <= d < 10
  {
    ('0' as int + d) as char
  }

  function DigitValue(c: char): int {
    c as int - '0' as int
  }

  function NatToString(n: nat): (r: string)
    ensures |r| >= 1
    ensures forall i :: 0 <= i < |r| ==> '0' <= r[i] <= '9'
  {
    if n < 10 then [DigitChar(n)] else NatToString(n / 10) + [DigitChar(n % 10)]
  }

  /** The decimal form Java gives an int in string concatenation: digits, '-' first when negative. */
  function IntToString(i: int): string {
    if i < 0 then "-" + NatToString(-i) else NatToString(i)
  }

  /** Reads back a run of decimal digits. */
  function ParseNat(s: string): int {
    if |s| == 0 then 0 else ParseNat(s[..|s| - 1]) * 10 + DigitValue(s[|s| - 1])
  }

  /** Reads back an optionally negative decimal number. */
  function ParseInt(s: string): int {
    if |s| > 0 && s[0] == '-' then -ParseNat(s[1..]) else ParseNat(s)
  }

  lemma {:induction false} ParseNatOfNatToString(n: nat)
    ensures ParseNat(NatToString(n)) == n
  {
    if n >= 10 {
      var s := NatToString(n);
      assert s[..|s| - 1] == NatToString(n / 10);
      ParseNatOfNatToString(n / 10);
    }
  }

  /** The decimal form of an int determines it: reading it back gives the int. */
  lemma ParseIntOfIntToString(i: int)
    ensures ParseInt(IntToString(i)) == i
  {
    if i < 0 {
      assert IntToString(i)[1..] == NatToString(-i);
      ParseNatOfNatToString(-i);
    } else {
      ParseNatOfNatToString(i);
    }
  }

  /** The decimal form is never empty and has no character that trim() removes, no comma and no quote. */
  lemma IntToStringShape(i: int)
    ensures IntToString(i) != []
    ensures forall k :: 0 <= k < |IntToString(i)| ==> !IsTrimmedAway(IntToString(i)[k])
    ensures ',' !in IntToString(i) && '\'' !in IntToString(i)
  {
    var s := IntToString(i);
    if i < 0 {
      forall k | 0 <= k < |s| ensures !IsTrimmedAway(s[k]) && s[k] != ',' && s[k] != '\'' {
        if k > 0 {
          assert s[k] == NatToString(-i)[k - 1];
        }
      }
    }
  }

  // ---------------------------------------------------------------------------------------
  // String.equalsIgnoreCase

  /**
    Character.toUpperCase, on the characters whose upper case is an ASCII letter: the ASCII
    lower-case letters, U+0131 (dotless i) and U+017F (long s). Every other character is
    left as it is, which is exact for all of ASCII.
  */
  function ToUpperCase(c: char): char {
    if 'a' <= c <= 'z' then (c as int - 32) as char
    else if c == '\U{0131}' then 'I'
    else if c == '\U{017F}' then 'S'
    else c
  }

  /**
    Character.toLowerCase, on the characters whose lower case is an ASCII letter: the ASCII
    upper-case letters, U+0130 (dotted capital I) and U+212A (Kelvin sign).
  */
  function ToLowerCase(c: char): char {
    if 'A' <= c <= 'Z' then (c as int + 32) as char
    else if c == '\U{0130}' then 'i'
    else if c == '\U{212A}' then 'k'
    else c
  }

  /** The per-character test of String.regionMatches(ignoreCase = true). */
  predicate CharEqualsIgnoreCase(a: char, b: char) {
    || a == b
    || ToUpperCase(a) == ToUpperCase(b)
    || ToLowerCase(ToUpperCase(a)) == ToLowerCase(ToUpperCase(b))
  }

  /**
    s.equalsIgnoreCase(t) for a non-null t. Exact whenever one of the two is ASCII, since only
    the characters listed at ToUpperCase and ToLowerCase fold onto an ASCII letter.
  */
  predicate EqualsIgnoreCase(s: string, t: string) {
    |s| == |t| && forall i :: 0 <= i < |s| ==> CharEqualsIgnoreCase(s[i], t[i])
  }

  /** lit.equalsIgnoreCase(s), which is false when s is null. */
  predicate LiteralEqualsIgnoreCase(lit: string, s: JString) {
    s.Some? && EqualsIgnoreCase(lit, s.value)
  }

  predicate IsAsciiLetter(c: char) {
    'a' <= c <= 'z' || 'A' <= c <= 'Z'
  }

  predicate IsAscii(s: string) {
    forall i :: 0 <= i < |s| ==> s[i] as int < 128
  }

  /** ASCII lower-casing, an independent reference for case-insensitive comparison. */
  function AsciiLower(c: char): char {
    if 'A' <= c <= 'Z' then (c as int + 32) as char else c
  }

  function AsciiLowerString(s: string): (r: string) {
    seq(|s|, i requires 0 <= i < |s| => AsciiLower(s[i]))
  }

  /** On ASCII characters the Java test is "same letter once lower-cased". */
  lemma CharEqualsIgnoreCaseAscii(a: char, b: char)
    requires a as int < 128 && b as int < 128
    ensures CharEqualsIgnoreCase(a, b) <==> AsciiLower(a) == AsciiLower(b)
  {
  }

  /** On ASCII strings equalsIgnoreCase is equality after ASCII lower-casing. */
  lemma EqualsIgnoreCaseAscii(s: string, t: string)
    requires IsAscii(s) && IsAscii(t)
    ensures EqualsIgnoreCase(s, t) <==> AsciiLowerString(s) == AsciiLowerString(t)
  {
    if EqualsIgnoreCase(s, t) {
      forall i | 0 <= i < |s| ensures AsciiLowerString(s)[i] == AsciiLowerString(t)[i] {
        CharEqualsIgnoreCaseAscii(s[i], t[i]);
      }
    }
    if AsciiLowerString(s) == AsciiLowerString(t) {
      forall i | 0 <= i < |s| ensures CharEqualsIgnoreCase(s[i], t[i]) {
        assert AsciiLowerString(s)[i] == AsciiLowerString(t)[i];
        CharEqualsIgnoreCaseAscii(s[i], t[i]);
      }
    }
  }

  /** lit.equalsIgnoreCase(s), for ASCII lit and s, is comparison of the lower-case forms. */
  lemma LiteralEqualsIgnoreCaseAscii(lit: string, lower: string, s: string)
    requires IsAscii(lit) && IsAscii(s) && AsciiLowerString(lit) == lower
    ensures LiteralEqualsIgnoreCase(lit, Some(s)) <==> AsciiLowerString(s) == lower
  {
    EqualsIgnoreCaseAscii(lit, s);
  }

  /** A character that matches an ASCII letter ignoring case is not one that trim() removes. */
  lemma LetterMatchIsNotTrimmed(a: char, b: char)
    requires IsAsciiLetter(a) && CharEqualsIgnoreCase(a, b)
    ensures !IsTrimmedAway(b)
  {
  }

  // ---------------------------------------------------------------------------------------
  // GraphHopper's Helper.isEmpty(String)

  /**
    What the model assumes of Helper.isEmpty, whose code is not part of this model: null and
    "" are empty, and a string counted as empty is blank. Both the zero-length test and the
    trim-based test satisfy it.
  */
  ghost predicate IsEmptySpec(isEmpty: JString -> bool) {
    && isEmpty(None)
    && isEmpty(Some(""))
    && forall s: string :: isEmpty(Some(s)) ==> IsBlank(s)
  }
}
