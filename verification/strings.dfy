/** String operations that both the Python backend and the TypeScript frontend
    use: lower-casing, substring search (`in` / `.includes`), prefix tests,
    whitespace stripping (`.strip()` / `.trim()`), splitting on a separator and
    joining with one, and JavaScript's `parseInt`. */
module Strings {
  import opened Common

  /** Lower-casing of one character; only ASCII letters are folded. */
  function LowerChar(c: char): char {
    if 'A' <= c <= 'Z' then (c as int + 32) as char else c
  }

  function Lower(s: string): (r: string)
    ensures |r| == |s|
    ensures forall i :: 0 <= i < |s| ==> r[i] == LowerChar(s[i])
  {
    if s == [] then [] else [LowerChar(s[0])] + Lower(s[1..])
  }

  /** Lower-casing twice is lower-casing once. */
  lemma LowerIdempotent(s: string)
    ensures Lower(Lower(s)) == Lower(s)
  {
    assert forall i :: 0 <= i < |s| ==> LowerChar(LowerChar(s[i])) == LowerChar(s[i]);
  }

  predicate IsPrefix(p: string, s: string) {
    |p| <= |s| && s[..|p|] == p
  }

  /** `q in s` in Python, `s.includes(q)` in TypeScript. */
  predicate Contains(s: string, q: string)
    decreases |s|
  {
    IsPrefix(q, s) || (|s| > 0 && Contains(s[1..], q))
  }

  /** `q` occurs in `s` starting at index `i`. */
  predicate OccursAt(s: string, q: string, i: int) {
    0 <= i && i + |q| <= |s| && s[i..i + |q|] == q
  }

  /** The recursive definition agrees with "q occurs at some position of s". */
  lemma {:induction false} ContainsIff(s: string, q: string)
    ensures Contains(s, q) <==> exists i :: OccursAt(s, q, i)
    decreases |s|
  {
    if IsPrefix(q, s) {
      assert OccursAt(s, q, 0);
    } else if |s| == 0 {
    } else {
      ContainsIff(s[1..], q);
      if exists i :: OccursAt(s, q, i) {
        var i :| OccursAt(s, q, i);
        assert i != 0;
        assert s[1..][i - 1..i - 1 + |q|] == s[i..i + |q|];
        assert OccursAt(s[1..], q, i - 1);
      }
      if exists i :: OccursAt(s[1..], q, i) {
        var i :| OccursAt(s[1..], q, i);
        assert s[i + 1..i + 1 + |q|] == s[1..][i..i + |q|];
        assert OccursAt(s, q, i + 1);
      }
    }
  }

  /** The empty query is found in every string (`"".includes("")` too). */
  lemma ContainsEmpty(s: string)
    ensures Contains(s, "")
  {
  }

  /** A string contains itself. */
  lemma ContainsSelf(s: string)
    ensures Contains(s, s)
  {
    assert s[..|s|] == s;
  }

  /** `s.startswith(p)` / `s.startsWith(p)`. */
  predicate StartsWith(s: string, p: string) {
    IsPrefix(p, s)
  }

  /** The ASCII whitespace that both Python's `str.strip()` and JavaScript's
      `trim()` remove. Python's `strip()` also removes the separators
      U+001C to U+001F, and both remove Unicode spaces; neither is modelled. */
  predicate IsSpace(c: char) {
    c == ' ' || c == '\t' || c == '\n' || c == '\r' || c == '\U{000B}' || c == '\U{000C}'
  }

  predicate AllSpace(s: string) {
    forall i :: 0 <= i < |s| ==> IsSpace(s[i])
  }

  /** Number of leading whitespace characters. */
  function LeadingSpaces(s: string): (n: nat)
    ensures n <= |s|
    ensures forall j :: 0 <= j < n ==> IsSpace(s[j])
    ensures n < |s| ==> !IsSpace(s[n])
  {
    if s == [] || !IsSpace(s[0]) then 0 else 1 + LeadingSpaces(s[1..])
  }

  /** Number of trailing whitespace characters. */
  function TrailingSpaces(s: string): (n: nat)
    ensures n <= |s|
    ensures forall j :: |s| - n <= j < |s| ==> IsSpace(s[j])
    ensures n < |s| ==> !IsSpace(s[|s| - n - 1])
  {
    if s == [] || !IsSpace(s[|s| - 1]) then 0 else 1 + TrailingSpaces(s[..|s| - 1])
  }

  /** `s.strip()` / `s.trim()`: `s` without its leading and trailing
      whitespace. The result neither starts nor ends with whitespace, and it is
      empty exactly when `s` is all whitespace. */
  function Strip(s: string): (r: string)
    ensures |r| <= |s|
    ensures r != [] ==> !IsSpace(r[0]) && !IsSpace(r[|r| - 1])
    ensures r == [] <==> AllSpace(s)
  {
    var i := LeadingSpaces(s);
    var k := TrailingSpaces(s[i..]);
    assert i < |s| ==> s[i..][0] == s[i];
    s[i..|s| - k]
  }

  /** Stripping twice is stripping once. */
  lemma StripIdempotent(s: string)
    ensures Strip(Strip(s)) == Strip(s)
  {
    var r := Strip(s);
    if r != [] {
      assert LeadingSpaces(r) == 0;
      assert r[0..] == r;
      assert TrailingSpaces(r) == 0;
    }
  }

  /** A string that neither starts nor ends with whitespace is its own
      stripped form. */
  lemma StripTrimmed(s: string)
    requires s != [] && !IsSpace(s[0]) && !IsSpace(s[|s| - 1])
    ensures Strip(s) == s
  {
    assert LeadingSpaces(s) == 0;
    assert s[0..] == s;
    assert TrailingSpaces(s) == 0;
  }

  /** A string that contains `a + q + b` contains `q`. */
  lemma ContainsInfix(s: string, a: string, q: string, b: string)
    requires Contains(s, a + q + b)
    ensures Contains(s, q)
  {
    ContainsIff(s, a + q + b);
    var i :| OccursAt(s, a + q + b, i);
    var w := a + q + b;
    assert s[i..i + |w|] == w;
    forall j | 0 <= j < |q| ensures s[i + |a| + j] == q[j] {
      assert s[i + |a| + j] == s[i..i + |w|][|a| + j] == w[|a| + j];
    }
    assert s[i + |a|..i + |a| + |q|] == q;
    assert OccursAt(s, q, i + |a|);
    ContainsIff(s, q);
  }

  /** Index of the first occurrence of `c` in `s`. */
  function IndexOf(s: string, c: char): (i: nat)
    requires c in s
    ensures i < |s| && s[i] == c && c !in s[..i]
  {
    if s[0] == c then 0 else 1 + IndexOf(s[1..], c)
  }

  /** `s.split(sep)` for a one-character separator, in both Python and
      JavaScript: the pieces between separators, in order, including empty
      ones; a string without the separator is one piece. */
  function Split(s: string, sep: char): (r: seq<string>)
    ensures |r| >= 1
    ensures forall k :: 0 <= k < |r| ==> sep !in r[k]
    decreases |s|
  {
    if sep !in s then [s]
    else
      var i := IndexOf(s, sep);
      [s[..i]] + Split(s[i + 1..], sep)
  }

  /** `sep.join(pieces)` / `pieces.join(sep)`. */
  function Join(pieces: seq<string>, sep: string): string {
    if pieces == [] then ""
    else if |pieces| == 1 then pieces[0]
    else pieces[0] + sep + Join(pieces[1..], sep)
  }

  /** Splitting and joining back with the same separator gives the input. */
  lemma {:induction false} JoinSplit(s: string, sep: char)
    ensures Join(Split(s, sep), [sep]) == s
    decreases |s|
  {
    if sep in s {
      var i := IndexOf(s, sep);
      JoinSplit(s[i + 1..], sep);
      var tail := Split(s[i + 1..], sep);
      assert Split(s, sep) == [s[..i]] + tail;
      assert ([s[..i]] + tail)[1..] == tail;
      assert s == s[..i] + [sep] + s[i + 1..];
    }
  }

  /** Joining pieces that do not contain the separator and splitting again
      gives the pieces back. */
  lemma {:induction false} SplitJoin(pieces: seq<string>, sep: char)
    requires |pieces| >= 1
    requires forall k :: 0 <= k < |pieces| ==> sep !in pieces[k]
    ensures Split(Join(pieces, [sep]), sep) == pieces
    decreases |pieces|
  {
    if |pieces| > 1 {
      var tail := Join(pieces[1..], [sep]);
      var s := pieces[0] + [sep] + tail;
      assert s[|pieces[0]|] == sep;
      assert sep in s;
      assert s[..|pieces[0]|] == pieces[0];
      assert IndexOf(s, sep) == |pieces[0]| by {
        var i := IndexOf(s, sep);
        assert forall m :: 0 <= m < |pieces[0]| ==> s[m] == pieces[0][m];
      }
      assert s[|pieces[0]| + 1..] == tail;
      SplitJoin(pieces[1..], sep);
      assert [pieces[0]] + pieces[1..] == pieces;
    }
  }

  // ---------------------------------------------------------------- parseInt

  predicate IsDecimalDigit(c: char) {
    '0' <= c <= '9'
  }

  /** The value of `c` as a digit in base 16 (`hex`) or base 10, if it is one. */
  function DigitValue(c: char, hex: bool): (d: Option<nat>)
    ensures d.Some? ==> d.value < (if hex then 16 else 10)
    ensures !hex ==> (d.Some? <==> IsDecimalDigit(c))
  {
    if '0' <= c <= '9' then Some(c as int - '0' as int)
    else if hex && 'a' <= c <= 'f' then Some(c as int - 'a' as int + 10)
    else if hex && 'A' <= c <= 'F' then Some(c as int - 'A' as int + 10)
    else None
  }

  /** Length of the longest prefix of `s` made of digits. */
  function DigitRun(s: string, hex: bool): (n: nat)
    ensures n <= |s|
    ensures forall i :: 0 <= i < n ==> DigitValue(s[i], hex).Some?
    ensures n < |s| ==> DigitValue(s[n], hex).None?
  {
    if s == [] || DigitValue(s[0], hex).None? then 0 else 1 + DigitRun(s[1..], hex)
  }

  /** The number a string of digits denotes, most significant digit first. */
  function DigitsValue(s: string, hex: bool): nat
    requires forall i :: 0 <= i < |s| ==> DigitValue(s[i], hex).Some?
  {
    if s == [] then 0
    else DigitsValue(s[..|s| - 1], hex) * (if hex then 16 else 10) + DigitValue(s[|s| - 1], hex).value
  }

  /** The part of `parseInt` after the sign: "0x" or "0X" switches to base
      16, and the longest run of digits after that is the value; without
      any digit the result is None. */
  function ParseUnsigned(u: string): (r: Option<nat>)
    ensures (forall i :: 0 <= i < |u| ==> !IsDecimalDigit(u[i])) ==> r.None?
  {
    var hex := |u| >= 2 && u[0] == '0' && (u[1] == 'x' || u[1] == 'X');
    var v := if hex then u[2..] else u;
    var n := DigitRun(v, hex);
    if n == 0 then None
    else
      assert !hex ==> IsDecimalDigit(v[0]);
      Some(DigitsValue(v[..n], hex))
  }

  /** The part of `parseInt` after the whitespace: one optional sign,
      then `ParseUnsigned`. */
  function ParseSigned(t: string): (r: Option<int>)
    ensures (forall i :: 0 <= i < |t| ==> !IsDecimalDigit(t[i])) ==> r.None?
  {
    var negative := t != [] && t[0] == '-';
    var u := if t != [] && (t[0] == '-' || t[0] == '+') then t[1..] else t;
    match ParseUnsigned(u)
    case None => None
    case Some(m) =>
      var value: int := if negative then -(m as int) else m;
      Some(value)
  }

  /** JavaScript's `parseInt(s)` without a radix: leading whitespace is
      skipped, then `ParseSigned`; what follows the digits is ignored, and
      without any digit the result is NaN (None). A text without a decimal
      digit is always NaN. */
  function ParseInt(s: string): (r: Option<int>)
    ensures (forall i :: 0 <= i < |s| ==> !IsDecimalDigit(s[i])) ==> r.None?
  {
    ParseSigned(s[LeadingSpaces(s)..])
  }

  /** The decimal digits of `n`, without leading zeros. */
  function Digits(n: nat): (r: string)
    ensures |r| >= 1 && forall i :: 0 <= i < |r| ==> IsDecimalDigit(r[i])
    ensures n > 0 ==> r[0] != '0'
  {
    if n < 10 then ['0' + n as char] else Digits(n / 10) + ['0' + (n % 10) as char]
  }

  /** `String(n)` for an integer. */
  function Decimal(n: int): string {
    if n < 0 then "-" + Digits(-n) else Digits(n)
  }

  /** The decimal form of an integer is one non-empty path piece. */
  lemma DecimalIsPiece(n: int)
    ensures Decimal(n) != "" && '/' !in Decimal(n)
  {
    var digits := Digits(if n < 0 then -n else n);
    assert forall i :: 0 <= i < |digits| ==> IsDecimalDigit(digits[i]);
  }

  /** The digits of `n` denote `n`. */
  lemma {:induction false} DigitsValueOfDigits(n: nat)
    ensures DigitsValue(Digits(n), false) == n
  {
    var d := Digits(n);
    if n >= 10 {
      DigitsValueOfDigits(n / 10);
      assert d[..|d| - 1] == Digits(n / 10);
    }
  }

  /** The digit run of a decimal number followed by text that does not
      start with a digit is the number's digits. */
  lemma {:induction false} DigitRunOfDigits(digits: string, tail: string)
    requires forall i :: 0 <= i < |digits| ==> IsDecimalDigit(digits[i])
    requires tail == [] || !IsDecimalDigit(tail[0])
    ensures DigitRun(digits + tail, false) == |digits|
    decreases |digits|
  {
    if digits != [] {
      DigitRunOfDigits(digits[1..], tail);
      assert (digits + tail)[1..] == digits[1..] + tail;
    } else {
      assert digits + tail == tail;
    }
  }

  /** The digits of `n` followed by text that does not continue them
      parse back to `n`. */
  lemma {:induction false} ParseUnsignedOfDigits(n: nat, tail: string)
    requires tail == [] || (!IsDecimalDigit(tail[0]) && tail[0] != 'x' && tail[0] != 'X')
    ensures ParseUnsigned(Digits(n) + tail) == Some(n)
  {
    var digits := Digits(n);
    var u := digits + tail;
    assert !(|u| >= 2 && u[0] == '0' && (u[1] == 'x' || u[1] == 'X')) by {
      if |u| >= 2 && u[0] == '0' {
        assert |digits| == 1;
        assert u[1] == tail[0];
      }
    }
    DigitRunOfDigits(digits, tail);
    assert u[..|digits|] == digits;
    DigitsValueOfDigits(n);
  }

  /** Whitespace in front of a text does not change what it parses to. */
  lemma {:induction false} ParseIntSkipsSpaces(spaces: string, x: string)
    requires AllSpace(spaces)
    requires x != [] ==> !IsSpace(x[0])
    ensures ParseInt(spaces + x) == ParseInt(x)
  {
    LeadingSpacesOfPrefix(spaces, x);
    LeadingSpacesOfPrefix([], x);
    assert (spaces + x)[|spaces|..] == x;
    assert [] + x == x && x[0..] == x;
  }

  /** A leading minus negates what follows it. */
  lemma MinusNegates(x: string, m: nat)
    requires ParseUnsigned(x) == Some(m)
    ensures ParseSigned("-" + x) == Some(-(m as int))
  {
    assert ("-" + x)[0] == '-' && ("-" + x)[1..] == x;
  }

  /** Without a sign, the text is read as an unsigned number. */
  lemma UnsignedAsIs(x: string, m: nat)
    requires x != [] && x[0] != '-' && x[0] != '+'
    requires ParseUnsigned(x) == Some(m)
    ensures ParseSigned(x) == Some(m)
  {
  }

  /** A text that starts with neither whitespace nor nothing is read
      from its first character. */
  lemma ParseIntNoSpace(s: string)
    requires s != [] && !IsSpace(s[0])
    ensures ParseInt(s) == ParseSigned(s)
  {
    assert s[0..] == s;
  }

  /** The decimal form of an integer, then text that does not continue it,
      read from its first character. */
  lemma {:induction false} ParseSignedOfDecimal(n: int, tail: string)
    requires tail == [] || (!IsDecimalDigit(tail[0]) && tail[0] != 'x' && tail[0] != 'X')
    ensures Decimal(n) + tail != [] && !IsSpace((Decimal(n) + tail)[0])
    ensures ParseSigned(Decimal(n) + tail) == Some(n)
  {
    if n < 0 {
      ParseSignedOfNegative(n, tail);
    } else {
      ParseSignedOfNatural(n, tail);
    }
  }

  lemma {:induction false} ParseSignedOfNegative(n: int, tail: string)
    requires n < 0
    requires tail == [] || (!IsDecimalDigit(tail[0]) && tail[0] != 'x' && tail[0] != 'X')
    ensures Decimal(n) + tail != [] && (Decimal(n) + tail)[0] == '-'
    ensures ParseSigned(Decimal(n) + tail) == Some(n)
  {
    var m: nat := -n;
    var x := Digits(m) + tail;
    ParseUnsignedOfDigits(m, tail);
    assert Decimal(n) + tail == "-" + x;
    MinusNegates(x, m);
  }

  lemma {:induction false} ParseSignedOfNatural(n: nat, tail: string)
    requires tail == [] || (!IsDecimalDigit(tail[0]) && tail[0] != 'x' && tail[0] != 'X')
    ensures Decimal(n) + tail != [] && IsDecimalDigit((Decimal(n) + tail)[0])
    ensures ParseSigned(Decimal(n) + tail) == Some(n)
  {
    var x := Digits(n) + tail;
    ParseUnsignedOfDigits(n, tail);
    assert x[0] == Digits(n)[0];
    UnsignedAsIs(x, n);
  }

  /** The decimal form of an integer, then any text that does not continue
      the number, parses back to that integer. */
  lemma {:induction false} ParseIntOfDecimal(n: int, tail: string)
    requires tail == [] || (!IsDecimalDigit(tail[0]) && tail[0] != 'x' && tail[0] != 'X')
    ensures ParseInt(Decimal(n) + tail) == Some(n)
  {
    ParseSignedOfDecimal(n, tail);
    ParseIntNoSpace(Decimal(n) + tail);
  }

  /** Whitespace before text that starts with a non-space is skipped whole. */
  lemma {:induction false} LeadingSpacesOfPrefix(spaces: string, rest: string)
    requires AllSpace(spaces)
    requires rest != [] ==> !IsSpace(rest[0])
    ensures LeadingSpaces(spaces + rest) == |spaces|
    decreases |spaces|
  {
    if spaces != [] {
      LeadingSpacesOfPrefix(spaces[1..], rest);
      assert (spaces + rest)[1..] == spaces[1..] + rest;
    } else {
      assert spaces + rest == rest;
    }
  }
}
