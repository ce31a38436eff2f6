/** Models of the Python built-ins the binder and the INI converter rely on:
    str.isspace, str.strip, str.lower, str.split, int() on a string and str() on an int. */
module Builtins {

  datatype Option<+T> = None | Some(value: T)

  /** str.isspace for one character: the whole set Python counts as whitespace. */
  predicate IsSpace(c: char) {
    || c == ' '
    || ('\t' <= c <= '\r')
    || ('\U{1C}' <= c <= '\U{1F}')
    || c == '\U{85}' || c == '\U{A0}' || c == '\U{1680}'
    || ('\U{2000}' <= c <= '\U{200A}')
    || c == '\U{2028}' || c == '\U{2029}' || c == '\U{202F}' || c == '\U{205F}' || c == '\U{3000}'
  }

  /** The two whitespace sets in play. str.strip removes every character str.isspace
      accepts. int() first turns non-ASCII whitespace into a space but then skips only
      the ASCII space and \t..\r, so the ASCII separators U+001C..U+001F stay. */
  datatype Whitespace = StrWhitespace | IntWhitespace

  predicate IsWhite(ws: Whitespace, c: char) {
    IsSpace(c) && (ws == IntWhitespace ==> !('\U{1C}' <= c <= '\U{1F}'))
  }

  /** The string has nothing for a strip over `ws` to remove. */
  predicate TrimmedOf(ws: Whitespace, s: string) {
    s == [] || (!IsWhite(ws, s[0]) && !IsWhite(ws, s[|s| - 1]))
  }

  /** The string has nothing for str.strip to remove. */
  predicate Trimmed(s: string) {
    TrimmedOf(StrWhitespace, s)
  }

  /** str.lstrip(): drops the leading whitespace and nothing else. */
  function StripLeft(ws: Whitespace, s: string): (r: string)
    ensures |r| <= |s|
    ensures r == [] || !IsWhite(ws, r[0])
    ensures r != [] ==> r[|r| - 1] == s[|s| - 1]
    ensures (s == [] || !IsWhite(ws, s[0])) ==> r == s
  {
    if s != [] && IsWhite(ws, s[0]) then StripLeft(ws, s[1..]) else s
  }

  /** str.rstrip(): drops the trailing whitespace and nothing else. */
  function StripRight(ws: Whitespace, s: string): (r: string)
    ensures |r| <= |s|
    ensures r == [] || !IsWhite(ws, r[|r| - 1])
    ensures r != [] ==> r[0] == s[0]
    ensures (s == [] || !IsWhite(ws, s[|s| - 1])) ==> r == s
  {
    if s != [] && IsWhite(ws, s[|s| - 1]) then StripRight(ws, s[..|s| - 1]) else s
  }

  /** What lstrip keeps is a suffix of its input, and what it drops is whitespace. */
  lemma {:induction false} StripLeftIsSuffix(ws: Whitespace, s: string)
    ensures StripLeft(ws, s) == s[|s| - |StripLeft(ws, s)|..]
    ensures forall i :: 0 <= i < |s| - |StripLeft(ws, s)| ==> IsWhite(ws, s[i])
  {
    if s != [] && IsWhite(ws, s[0]) {
      StripLeftIsSuffix(ws, s[1..]);
    }
  }

  /** What rstrip keeps is a prefix of its input, and what it drops is whitespace. */
  lemma {:induction false} StripRightIsPrefix(ws: Whitespace, s: string)
    ensures StripRight(ws, s) == s[..|StripRight(ws, s)|]
    ensures forall i :: |StripRight(ws, s)| <= i < |s| ==> IsWhite(ws, s[i])
  {
    if s != [] && IsWhite(ws, s[|s| - 1]) {
      StripRightIsPrefix(ws, s[..|s| - 1]);
    }
  }

  /** Both ends stripped. */
  function StripWith(ws: Whitespace, s: string): (r: string)
    ensures TrimmedOf(ws, r)
    ensures |r| <= |s|
    ensures TrimmedOf(ws, s) ==> r == s
  {
    StripRight(ws, StripLeft(ws, s))
  }

  /** A strip keeps one contiguous run of its input, and everything it drops on either
      side of that run is whitespace. */
  lemma StripIsInfix(ws: Whitespace, s: string)
    ensures var i := |s| - |StripLeft(ws, s)|;
            var r := StripWith(ws, s);
            && i + |r| <= |s|
            && r == s[i..i + |r|]
            && forall j :: 0 <= j < |s| && !(i <= j < i + |r|) ==> IsWhite(ws, s[j])
  {
    var l := StripLeft(ws, s);
    var r := StripRight(ws, l);
    assert StripWith(ws, s) == r;
    StripLeftIsSuffix(ws, s);
    StripRightIsPrefix(ws, l);
    InfixOfSuffix(ws, s, l, r);
  }

  /** A prefix of a suffix is an infix, and what lies before the suffix and after the
      prefix is whitespace. */
  lemma InfixOfSuffix(ws: Whitespace, s: string, l: string, r: string)
    requires |l| <= |s| && l == s[|s| - |l|..]
    requires forall j :: 0 <= j < |s| - |l| ==> IsWhite(ws, s[j])
    requires |r| <= |l| && r == l[..|r|]
    requires forall j :: |r| <= j < |l| ==> IsWhite(ws, l[j])
    ensures var i := |s| - |l|;
            && i + |r| <= |s|
            && r == s[i..i + |r|]
            && forall j :: 0 <= j < |s| && !(i <= j < i + |r|) ==> IsWhite(ws, s[j])
  {
    var i := |s| - |l|;
    forall j | i + |r| <= j < |s|
      ensures IsWhite(ws, s[j])
    {
      assert s[j] == l[j - i];
    }
  }

  /** str.strip() */
  function Strip(s: string): (r: string)
    ensures Trimmed(r)
    ensures |r| <= |s|
    ensures Trimmed(s) ==> r == s
  {
    StripWith(StrWhitespace, s)
  }

  /** str.lower() on ASCII letters; every other character is kept. */
  function LowerChar(c: char): char {
    if 'A' <= c <= 'Z' then (c as int + 32) as char else c
  }

  function Lower(s: string): (r: string)
    ensures |r| == |s|
    ensures forall i :: 0 <= i < |s| ==> r[i] == LowerChar(s[i])
  {
    if s == [] then [] else [LowerChar(s[0])] + Lower(s[1..])
  }

  lemma {:induction false} LowerIdempotent(s: string)
    ensures Lower(Lower(s)) == Lower(s)
  {
    if s != [] {
      LowerIdempotent(s[1..]);
      assert Lower(s)[1..] == Lower(s[1..]);
    }
  }

  /** Number of occurrences of c in s. */
  function Count(s: string, c: char): nat {
    if s == [] then 0 else (if s[0] == c then 1 else 0) + Count(s[1..], c)
  }

  /** str.split(sep) with an explicit one-character separator: empty pieces are kept. */
  function Split(s: string, sep: char): (parts: seq<string>)
    ensures |parts| == Count(s, sep) + 1
    ensures forall i :: 0 <= i < |parts| ==> sep !in parts[i]
  {
    if s == [] then [""]
    else
      var rest := Split(s[1..], sep);
      if s[0] == sep then [""] + rest
      else [[s[0]] + rest[0]] + rest[1..]
  }

  /** sep.join(parts) */
  function Join(parts: seq<string>, sep: char): string
    requires |parts| > 0
  {
    if |parts| == 1 then parts[0] else parts[0] + [sep] + Join(parts[1..], sep)
  }

  /** Joining the pieces of a split gives back the string. */
  lemma {:induction false} JoinSplit(s: string, sep: char)
    ensures Join(Split(s, sep), sep) == s
  {
    if s != [] {
      var rest := Split(s[1..], sep);
      JoinSplit(s[1..], sep);
      if s[0] == sep {
        assert Split(s, sep)[1..] == rest;
      } else if |rest| == 1 {
        assert Join(Split(s, sep), sep) == [s[0]] + rest[0];
      } else {
        var parts := Split(s, sep);
        assert parts[1..] == rest[1..];
        assert Join(rest, sep) == rest[0] + [sep] + Join(rest[1..], sep);
      }
    }
  }

  /** Splitting a piece with no separator in front of more text. */
  lemma {:induction false} SplitPrefix(a: string, t: string, sep: char)
    requires sep !in a
    ensures Split(a + t, sep) == [a + Split(t, sep)[0]] + Split(t, sep)[1..]
  {
    if a != [] {
      SplitPrefix(a[1..], t, sep);
      assert (a + t)[1..] == a[1..] + t;
      assert [a[0]] + (a[1..] + Split(t, sep)[0]) == a + Split(t, sep)[0];
    } else {
      var parts := Split(t, sep);
      assert a + t == t && a + parts[0] == parts[0];
      assert parts == [parts[0]] + parts[1..];
    }
  }

  /** Splitting a join of separator-free pieces gives back the pieces. */
  lemma {:induction false} SplitJoin(parts: seq<string>, sep: char)
    requires |parts| > 0
    requires forall i :: 0 <= i < |parts| ==> sep !in parts[i]
    ensures Split(Join(parts, sep), sep) == parts
  {
    if |parts| == 1 {
      SplitPrefix(parts[0], "", sep);
      assert parts[0] + "" == parts[0];
    } else {
      var tail := Join(parts[1..], sep);
      SplitJoin(parts[1..], sep);
      SplitPrefix(parts[0], [sep] + tail, sep);
      assert parts[0] + [sep] + tail == parts[0] + ([sep] + tail);
      assert ([sep] + tail)[1..] == tail;
      assert Split([sep] + tail, sep) == [""] + Split(tail, sep);
      assert parts[0] + "" == parts[0];
      assert [parts[0]] + parts[1..] == parts;
    }
  }

  predicate IsDigit(c: char) { '0' <= c <= '9' }

  function DigitValue(c: char): nat { if IsDigit(c) then c as int - '0' as int else 0 }

  function DigitChar(d: nat): (c: char)
    requires d < 10
    ensures IsDigit(c) && DigitValue(c) == d
  {
    ('0' as int + d) as char
  }

  /** The digit part int() accepts in base 10: ASCII digits, with single underscores
      allowed between two digits (digit ("_"? digit)*), read from the right. */
  predicate ValidDigits(t: string)
    decreases |t|
  {
    && |t| > 0
    && IsDigit(t[|t| - 1])
    && (|t| == 1
        || ValidDigits(t[..|t| - 1])
        || (|t| > 2 && t[|t| - 2] == '_' && ValidDigits(t[..|t| - 2])))
  }

  /** A valid digit string starts with a digit. */
  lemma {:induction false} ValidDigitsStart(t: string)
    requires ValidDigits(t)
    ensures IsDigit(t[0])
    decreases |t|
  {
    if |t| > 1 {
      if ValidDigits(t[..|t| - 1]) {
        ValidDigitsStart(t[..|t| - 1]);
      } else {
        ValidDigitsStart(t[..|t| - 2]);
      }
    }
  }

  /** The number a digit string denotes, underscores ignored. */
  function DigitsValue(t: string): nat {
    if t == [] then 0
    else if t[|t| - 1] == '_' then DigitsValue(t[..|t| - 1])
    else 10 * DigitsValue(t[..|t| - 1]) + DigitValue(t[|t| - 1])
  }

  /** What int() accepts once the whitespace around it is gone: an optional sign, then
      digits. */
  predicate IsIntLiteral(t: string) {
    if |t| > 0 && (t[0] == '-' || t[0] == '+') then ValidDigits(t[1..]) else ValidDigits(t)
  }

  /** The number of decimal digits in a string; signs and underscores do not count. */
  function NumDigits(t: string): nat {
    if t == [] then 0 else (if IsDigit(t[0]) then 1 else 0) + NumDigits(t[1..])
  }

  /** sys.get_int_max_str_digits() at its default: int() refuses a literal with more
      digits than this, and str() an int whose decimal spelling would have more. */
  const IntMaxStrDigits: nat := 4300

  /** The number an integer literal (sign, then digits) denotes. */
  function LiteralValue(t: string): int {
    if |t| > 0 && t[0] == '-' then -(DigitsValue(t[1..]) as int)
    else if |t| > 0 && t[0] == '+' then DigitsValue(t[1..])
    else DigitsValue(t)
  }

  /** int(s) for a str argument: whitespace around the literal, an optional sign, then
      digits, at most IntMaxStrDigits of them. None stands for the ValueError int()
      raises. */
  function ParseInt(s: string): (r: Option<int>)
    ensures var t := StripWith(IntWhitespace, s);
            r.Some? <==> IsIntLiteral(t) && NumDigits(t) <= IntMaxStrDigits
    ensures r.Some? ==> r.value == LiteralValue(StripWith(IntWhitespace, s))
    ensures r.Some? && r.value < 0 ==> StripWith(IntWhitespace, s)[0] == '-'
  {
    var t := StripWith(IntWhitespace, s);
    if NumDigits(t) > IntMaxStrDigits then None
    else if |t| > 0 && (t[0] == '-' || t[0] == '+') then
      match ParseDigits(t[1..])
      case Some(magnitude) => Some(if t[0] == '-' then -(magnitude as int) else magnitude)
      case None => None
    else ParseDigits(t)
  }

  /** What follows the optional sign of a literal. */
  function Unsigned(t: string): (u: string)
    ensures |u| <= |t|
  {
    if |t| > 0 && (t[0] == '-' || t[0] == '+') then t[1..] else t
  }

  /** The digits and underscores int() reads after the sign, before it looks at
      anything that follows them. */
  function DigitRun(u: string): (run: string)
    ensures |run| <= |u|
    ensures forall k :: 0 <= k < |run| ==> run[k] == u[k] && (IsDigit(u[k]) || u[k] == '_')
    ensures |run| < |u| ==> !IsDigit(u[|run|]) && u[|run|] != '_'
  {
    if u != [] && (IsDigit(u[0]) || u[0] == '_') then [u[0]] + DigitRun(u[1..]) else []
  }

  /** The digit run of int(s). */
  function ScannedDigits(s: string): string {
    DigitRun(Unsigned(StripWith(IntWhitespace, s)))
  }

  /** int(s) fails on the digit limit rather than on the syntax: the run of digits it
      reads is well formed and has more than IntMaxStrDigits digits, whatever follows. */
  predicate ExceedsDigitLimit(s: string) {
    ValidDigits(ScannedDigits(s)) && NumDigits(ScannedDigits(s)) > IntMaxStrDigits
  }

  /** The ValueError text of int() on a string that is not a literal. */
  function InvalidLiteralMessage(s: string): string {
    "invalid literal for int() with base 10: '" + s + "'"
  }

  /** The start of both texts past the limit; 4300 is IntMaxStrDigits. */
  const LimitPrefix: string := "Exceeds the limit (" + "4300" + " digits) for integer string conversion"

  /** The ValueError text of int() past the limit. */
  function ToIntLimitMessage(digits: nat): string {
    LimitPrefix + ": value has " + NatToString(digits) + " digits; use sys.set_int_max_str_digits() to increase the limit"
  }

  /** The ValueError text of str() past the limit. */
  const ToStrLimitMessage: string := LimitPrefix + "; use sys.set_int_max_str_digits() to increase the limit"

  /** The two texts of int() never coincide. */
  lemma IntMessagesDistinct(s: string, digits: nat)
    ensures InvalidLiteralMessage(s) != ToIntLimitMessage(digits)
  {
    assert InvalidLiteralMessage(s)[0] == 'i';
    assert LimitPrefix[0] == 'E';
    assert ToIntLimitMessage(digits)[0] == LimitPrefix[0];
  }

  /** A valid digit string holds nothing but digits and underscores. */
  lemma {:induction false} ValidDigitsChars(u: string)
    requires ValidDigits(u)
    ensures forall k :: 0 <= k < |u| ==> IsDigit(u[k]) || u[k] == '_'
    decreases |u|
  {
    if |u| > 1 {
      var p := if ValidDigits(u[..|u| - 1]) then u[..|u| - 1] else u[..|u| - 2];
      ValidDigitsChars(p);
      assert forall k :: 0 <= k < |p| ==> u[k] == p[k];
    }
  }

  /** A string of plain digits is a valid digit string with one digit per character. */
  lemma {:induction false} AllDigitsValid(d: string)
    requires |d| > 0
    requires forall k :: 0 <= k < |d| ==> IsDigit(d[k])
    ensures ValidDigits(d) && NumDigits(d) == |d|
    decreases |d|
  {
    if |d| > 1 {
      AllDigitsValid(d[..|d| - 1]);
      AllDigitsValid(d[1..]);
    }
  }

  /** A literal's digits are its whole body, so the run int() reads is the body. */
  lemma LiteralIsScanned(s: string)
    requires IsIntLiteral(StripWith(IntWhitespace, s))
    ensures ScannedDigits(s) == Unsigned(StripWith(IntWhitespace, s))
  {
    var u := Unsigned(StripWith(IntWhitespace, s));
    ValidDigitsChars(u);
    var run := DigitRun(u);
    assert |run| == |u|;
  }

  /** A sign is not a digit. */
  lemma NumDigitsUnsigned(t: string)
    ensures NumDigits(Unsigned(t)) == NumDigits(t)
  {
  }

  /** The limit is a part of int()'s contract: a literal with too many digits is
      refused, and refused on the limit; a run over the limit is never accepted. */
  lemma DigitLimitRejects(s: string)
    ensures ExceedsDigitLimit(s) ==> ParseInt(s) == None
    ensures IsIntLiteral(StripWith(IntWhitespace, s)) && NumDigits(StripWith(IntWhitespace, s)) > IntMaxStrDigits
            ==> ExceedsDigitLimit(s)
  {
    var t := StripWith(IntWhitespace, s);
    NumDigitsUnsigned(t);
    if IsIntLiteral(t) {
      LiteralIsScanned(s);
    }
  }

  /** The digit part of int(): its value, or None when it is not a valid literal. */
  function ParseDigits(t: string): (r: Option<nat>)
    ensures r.Some? <==> ValidDigits(t)
    ensures r.Some? ==> r.value == DigitsValue(t)
  {
    if ValidDigits(t) then Some(DigitsValue(t)) else None
  }

  /** str(n) for a natural number. */
  function NatToString(n: nat): (r: string)
    ensures |r| > 0
    ensures forall i :: 0 <= i < |r| ==> IsDigit(r[i])
  {
    if n < 10 then [DigitChar(n)] else NatToString(n / 10) + [DigitChar(n % 10)]
  }

  /** str(i) for an int. */
  function IntToString(i: int): string {
    if i < 0 then "-" + NatToString(-i) else NatToString(i)
  }

  lemma {:induction false} DigitsOfNatToString(n: nat)
    ensures ValidDigits(NatToString(n)) && DigitsValue(NatToString(n)) == n
  {
    if n >= 10 {
      DigitsOfNatToString(n / 10);
      var r := NatToString(n);
      assert r[..|r| - 1] == NatToString(n / 10);
    }
  }

  /** int(d) for a valid digit string within the limit. */
  lemma ParseIntOfDigits(d: string)
    requires ValidDigits(d) && NumDigits(d) <= IntMaxStrDigits
    ensures ParseInt(d) == Some(DigitsValue(d))
  {
    ValidDigitsStart(d);
    assert TrimmedOf(IntWhitespace, d);
    assert StripWith(IntWhitespace, d) == d;
  }

  /** int("-" + d) for a valid digit string within the limit. */
  lemma ParseIntOfNegatedDigits(d: string)
    requires ValidDigits(d) && NumDigits(d) <= IntMaxStrDigits
    ensures ParseInt("-" + d).Some? && ParseInt("-" + d).value + DigitsValue(d) == 0
  {
    var t := "-" + d;
    assert t[|t| - 1] == d[|d| - 1];
    assert StripWith(IntWhitespace, t) == t;
    assert t[1..] == d;
    assert NumDigits(t) == NumDigits(d);
  }

  /** int() rejects a literal with one of the separators U+001C..U+001F in front of
      it, although str.strip would remove it. */
  lemma ParseIntRejectsLeadingSeparator(c: char, s: string)
    requires '\U{1C}' <= c <= '\U{1F}'
    ensures ParseInt([c] + s) == None
    ensures Strip([c] + "5") == "5" && ParseInt("5") == Some(5)
  {
    var front := [c] + s;
    var t := StripWith(IntWhitespace, front);
    assert StripLeft(IntWhitespace, front) == front;
    StripRightIsPrefix(IntWhitespace, front);
    assert t[0] == c;
    if ValidDigits(t) {
      ValidDigitsStart(t);
    }
    var five := [c] + "5";
    assert five[1..] == "5";
    assert ValidDigits("5");
    ParseIntOfDigits("5");
  }

  /** Likewise for one of those separators after the literal. */
  lemma ParseIntRejectsTrailingSeparator(c: char, s: string)
    requires '\U{1C}' <= c <= '\U{1F}'
    ensures ParseInt(s + [c]) == None
  {
    var back := s + [c];
    var u := StripWith(IntWhitespace, back);
    assert StripRight(IntWhitespace, back) == back;
    StripLeftIsSuffix(IntWhitespace, back);
    assert u[|u| - 1] == c;
    if |u| > 1 {
      assert u[1..][|u| - 2] == c;
    }
  }

  /** int(str(i)) == i, for every i whose spelling str() accepts. */
  lemma ParseIntToString(i: int)
    requires NumDigits(IntToString(i)) <= IntMaxStrDigits
    ensures ParseInt(IntToString(i)) == Some(i)
  {
    var m: nat := if i < 0 then -i else i;
    var digits := NatToString(m);
    DigitsOfNatToString(m);
    if i < 0 {
      assert IntToString(i) == "-" + digits;
      assert ("-" + digits)[1..] == digits;
      ParseIntOfNegatedDigits(digits);
    } else {
      assert IntToString(i) == digits;
      ParseIntOfDigits(digits);
    }
  }
}
