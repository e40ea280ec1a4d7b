/**
 * The JavaScript string and number primitives the services rely on:
 * `parseInt(s, 10)`, `Number.prototype.toString()`, `String.prototype.toLowerCase()`
 * (ASCII letters only) and `String.prototype.includes`.
 */
module JsText {

  /** What `parseInt` returns: an integer, or `NaN` when no digit could be read. */
  datatype ParsedInt = Int(value: int) | NaN

  predicate IsDigit(c: char) {
    '0' <= c <= '9'
  }

  /** The value of a decimal digit. */
  function DigitValue(c: char): (d: int)
    ensures 0 <= d < 10
    ensures IsDigit(c) ==> d == c as int - '0' as int
  {
    if IsDigit(c) then c as int - '0' as int else 0
  }

  function DigitChar(d: int): (c: char)
    requires 0 <= d < 10
    ensures IsDigit(c) && DigitValue(c) == d
  {
    ('0' as int + d) as char
  }

  predicate AllDigits(s: string) {
    forall i :: 0 <= i < |s| ==> IsDigit(s[i])
  }

  /** The white space `parseInt` skips before the number (its ASCII members). */
  predicate IsSpace(c: char) {
    c == ' ' || c == '\t' || c == '\n' || c == '\r' || c as int == 11 || c as int == 12
  }

  /** `s` without its leading white space. */
  function TrimStart(s: string): string {
    if s != [] && IsSpace(s[0]) then TrimStart(s[1..]) else s
  }

  /** `TrimStart` drops exactly the leading white space. */
  lemma {:induction false} TrimStartSuffix(s: string)
    ensures |TrimStart(s)| <= |s| && TrimStart(s) == s[|s| - |TrimStart(s)|..]
    ensures TrimStart(s) == [] || !IsSpace(TrimStart(s)[0])
    ensures forall i :: 0 <= i < |s| - |TrimStart(s)| ==> IsSpace(s[i])
  {
    if s != [] && IsSpace(s[0]) {
      var rest := s[1..];
      TrimStartSuffix(rest);
      var t := TrimStart(rest);
      assert TrimStart(s) == t;
      assert rest[|rest| - |t|..] == s[|s| - |t|..];
      forall i | 0 <= i < |s| - |t| ensures IsSpace(s[i]) {
        if i > 0 {
          assert s[i] == rest[i - 1];
        }
      }
    }
  }

  /** The longest prefix of `s` made of decimal digits. */
  function DigitRun(s: string): string {
    if s != [] && IsDigit(s[0]) then [s[0]] + DigitRun(s[1..]) else []
  }

  /** `DigitRun` is the longest all-digit prefix. */
  lemma {:induction false} DigitRunPrefix(s: string)
    ensures DigitRun(s) <= s && AllDigits(DigitRun(s))
    ensures |DigitRun(s)| == |s| || !IsDigit(s[|DigitRun(s)|])
  {
    if s != [] && IsDigit(s[0]) {
      DigitRunPrefix(s[1..]);
    }
  }

  /** The value of a digit string read left to right, most significant digit first. */
  function DigitsValue(d: string): nat {
    if d == [] then 0 else DigitsValue(d[..|d| - 1]) * 10 + DigitValue(d[|d| - 1])
  }

  /**
   * `parseInt(s, 10)`: skip leading white space, read an optional sign and then as many
   * decimal digits as there are; anything after the digits is ignored, and no digit at
   * all gives `NaN`.
   */
  function ParseInt(s: string): (r: ParsedInt)
    ensures r.Int? <==> var u := SignedPart(TrimStart(s)); u != [] && IsDigit(u[0])
    ensures r.Int? && r.value < 0 ==> TrimStart(s) != [] && TrimStart(s)[0] == '-'
  {
    var t := TrimStart(s);
    var digits := DigitRun(SignedPart(t));
    if digits == [] then NaN
    else if t[0] == '-' then Int(-(DigitsValue(digits) as int))
    else Int(DigitsValue(digits))
  }

  /** What follows an optional leading sign. */
  function SignedPart(t: string): string {
    if t != [] && (t[0] == '-' || t[0] == '+') then t[1..] else t
  }

  /** Text without a single digit, such as "" or "any", parses to `NaN`. */
  lemma ParseIntNoDigits(s: string)
    requires forall i :: 0 <= i < |s| ==> !IsDigit(s[i])
    ensures ParseInt(s) == NaN
  {
    TrimStartSuffix(s);
    var t := TrimStart(s);
    var u := SignedPart(t);
    if u != [] {
      assert u[0] == s[|s| - |u|];
    }
  }

  /** The decimal numeral of a natural number, without leading zeros. */
  function NatToString(n: nat): (s: string)
    ensures s != [] && AllDigits(s)
  {
    if n < 10 then [DigitChar(n)] else NatToString(n / 10) + [DigitChar(n % 10)]
  }

  /** `n.toString()` for an integer `n`. */
  function IntToString(n: int): (s: string)
    ensures s != []
    ensures n >= 0 ==> AllDigits(s)
    ensures n < 0 ==> s[0] == '-' && s[1..] != [] && AllDigits(s[1..])
  {
    if n < 0 then
      var digits := NatToString(-n);
      assert ("-" + digits)[1..] == digits;
      "-" + digits
    else NatToString(n)
  }

  lemma {:induction false} NatToStringValue(n: nat)
    ensures DigitsValue(NatToString(n)) == n
  {
    if n >= 10 {
      var s := NatToString(n);
      assert s[..|s| - 1] == NatToString(n / 10);
      NatToStringValue(n / 10);
    }
  }

  lemma {:induction false} DigitRunOfDigits(s: string)
    requires AllDigits(s)
    ensures DigitRun(s) == s
  {
    if s != [] {
      DigitRunOfDigits(s[1..]);
    }
  }

  /** `parseInt(n.toString(), 10) === n`: the string form of an Id parses back to it. */
  lemma ParseIntOfIntToString(n: int)
    ensures ParseInt(IntToString(n)) == Int(n)
  {
    var m: nat := if n < 0 then -n else n;
    var digits := NatToString(m);
    var s := IntToString(n);
    assert !IsSpace(s[0]);
    assert TrimStart(s) == s;
    assert SignedPart(s) == digits;
    DigitRunOfDigits(digits);
    NatToStringValue(m);
  }

  /** Distinct Ids have distinct string forms. */
  lemma IntToStringInjective(a: int, b: int)
    ensures IntToString(a) == IntToString(b) <==> a == b
  {
    ParseIntOfIntToString(a);
    ParseIntOfIntToString(b);
  }

  /** The digit run stops at the first character that is not a digit. */
  lemma {:induction false} DigitRunStops(d: string, rest: string)
    requires AllDigits(d)
    requires rest == [] || !IsDigit(rest[0])
    ensures DigitRun(d + rest) == d
  {
    if d == [] {
      assert d + rest == rest;
    } else {
      assert (d + rest)[1..] == d[1..] + rest;
      DigitRunStops(d[1..], rest);
    }
  }

  /** Skipping leading white space stops at the first other character. */
  lemma {:induction false} TrimStartSpaces(space: string, u: string)
    requires forall i :: 0 <= i < |space| ==> IsSpace(space[i])
    requires u == [] || !IsSpace(u[0])
    ensures TrimStart(space + u) == u
  {
    if space == [] {
      assert space + u == u;
    } else {
      assert (space + u)[1..] == space[1..] + u;
      TrimStartSpaces(space[1..], u);
    }
  }

  /**
   * Every numeral `parseInt` accepts: white space, an optional sign, at least one digit
   * (leading zeros allowed) and a tail that does not start with a digit. The value is the
   * digits read in base 10, negated after a minus sign.
   */
  lemma ParseIntNumeral(space: string, sign: string, digits: string, rest: string)
    requires forall i :: 0 <= i < |space| ==> IsSpace(space[i])
    requires sign == "" || sign == "+" || sign == "-"
    requires digits != [] && AllDigits(digits)
    requires rest == [] || !IsDigit(rest[0])
    ensures ParseInt(space + sign + digits + rest) ==
            Int(if sign == "-" then -(DigitsValue(digits) as int) else DigitsValue(digits))
  {
    var u := sign + digits + rest;
    assert space + sign + digits + rest == space + u;
    assert IsDigit(digits[0]);
    assert u[0] == if sign == "" then digits[0] else sign[0];
    TrimStartSpaces(space, u);
    assert SignedPart(u) == digits + rest by {
      if sign != "" {
        assert u[1..] == digits + rest;
      }
    }
    DigitRunStops(digits, rest);
  }

  /**
   * Whatever follows the digits is ignored: a decimal such as "2.5" is truncated to its
   * integer part, because `parseInt` stops at the point.
   */
  lemma ParseIntIgnoresRest(n: nat, rest: string)
    requires rest == [] || !IsDigit(rest[0])
    ensures ParseInt(NatToString(n) + rest) == Int(n)
  {
    var digits := NatToString(n);
    var s := digits + rest;
    assert IsDigit(s[0]) by {
      assert s[0] == digits[0];
    }
    assert TrimStart(s) == s;
    assert SignedPart(s) == s;
    assert DigitRun(s) == digits by {
      DigitRunStops(digits, rest);
    }
    assert DigitsValue(digits) == n by {
      NatToStringValue(n);
    }
  }

  /** `String.prototype.toLowerCase` on one character, for the ASCII letters. */
  function LowerChar(c: char): char {
    if 'A' <= c <= 'Z' then (c as int + 32) as char else c
  }

  /** `toLowerCase` on a string: lower-cases every ASCII letter, position by position. */
  function Lower(s: string): (r: string)
    ensures |r| == |s|
    ensures forall i :: 0 <= i < |s| ==> r[i] == LowerChar(s[i])
  {
    if s == [] then [] else [LowerChar(s[0])] + Lower(s[1..])
  }

  /** `needle` occurs in `hay` starting at position `i`. */
  predicate OccursAt(hay: string, needle: string, i: int) {
    0 <= i && i + |needle| <= |hay| && hay[i..i + |needle|] == needle
  }

  /** `hay.includes(needle)`. */
  function Contains(hay: string, needle: string): (r: bool)
    ensures r <==> exists i :: OccursAt(hay, needle, i)
  {
    if needle <= hay then
      assert OccursAt(hay, needle, 0);
      true
    else if hay == [] then
      assert forall i :: !OccursAt(hay, needle, i);
      false
    else
      var rest := Contains(hay[1..], needle);
      assert forall i :: OccursAt(hay[1..], needle, i) <==> OccursAt(hay, needle, i + 1) by {
        forall i ensures OccursAt(hay[1..], needle, i) <==> OccursAt(hay, needle, i + 1) {
          if 0 <= i && i + |needle| <= |hay[1..]| {
            assert hay[1..][i..i + |needle|] == hay[i + 1..i + 1 + |needle|];
          }
        }
      }
      assert !OccursAt(hay, needle, 0);
      assert forall i :: OccursAt(hay, needle, i) ==> i >= 1 && OccursAt(hay[1..], needle, i - 1);
      rest
  }
}
