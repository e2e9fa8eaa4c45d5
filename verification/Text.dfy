/** Optional values, as Rust's Option, and the size of a map. */
module Common {
  datatype Option<+T> = None | Some(value: T)

  lemma OneMore<K, V>(m: map<K, V>, k: K, v: V)
    requires k !in m
    ensures |m[k := v]| == |m| + 1
  {
    assert m[k := v].Keys == m.Keys + {k};
  }
}

/**
  Decimal text, on both sides of the wire.

  A `string` is a sequence of bytes throughout the project, one char per byte.
  Rust prints integers with `to_string` and reads them back with `parse`; the Lua
  scripts test a pattern and call `tonumber`.
*/
module Decimal {
  import opened Common

  const U64_MAX: int := 0xFFFF_FFFF_FFFF_FFFF
  const I32_MIN: int := -0x8000_0000
  const I32_MAX: int := 0x7FFF_FFFF
  const LUA_SAFE_MAX: int := 9007199254740991

  type u64 = n: int | 0 <= n <= U64_MAX
  type i32 = n: int | I32_MIN <= n <= I32_MAX

  function TwoTo(n: nat): nat {
    if n == 0 then 1 else 2 * TwoTo(n - 1)
  }

  /** The widths of the two integer types, and of the integers that a double holds. */
  lemma Widths()
    ensures U64_MAX + 1 == TwoTo(64) && I32_MAX + 1 == TwoTo(31) && I32_MIN == 0 - TwoTo(31) && LUA_SAFE_MAX + 1 == TwoTo(53)
  {
    assert TwoTo(0) == 1 && TwoTo(5) == 32;
    EightMore(0);
    EightMore(8);
    EightMore(16);
    assert TwoTo(31) == 128 * TwoTo(24) && TwoTo(32) == 256 * TwoTo(24) by { EightMore(24); }
    EightMore(32);
    EightMore(40);
    assert TwoTo(53) == 32 * TwoTo(48) by { EightMore(48); }
    EightMore(48);
    EightMore(56);
  }

  lemma EightMore(n: nat)
    ensures TwoTo(n + 5) == 32 * TwoTo(n) && TwoTo(n + 7) == 128 * TwoTo(n) && TwoTo(n + 8) == 256 * TwoTo(n)
  {
    assert TwoTo(n + 2) == 4 * TwoTo(n) by { assert TwoTo(n + 1) == 2 * TwoTo(n); }
    assert TwoTo(n + 4) == 16 * TwoTo(n) by { assert TwoTo(n + 3) == 8 * TwoTo(n); }
    assert TwoTo(n + 6) == 64 * TwoTo(n) by { assert TwoTo(n + 5) == 32 * TwoTo(n); }
  }

  predicate IsDigit(c: char) {
    '0' <= c <= '9'
  }

  function DigitValue(c: char): (d: nat)
    requires IsDigit(c)
    ensures d < 10
  {
    c as int - '0' as int
  }

  function DigitChar(d: nat): (c: char)
    requires d < 10
    ensures IsDigit(c) && DigitValue(c) == d
  {
    (d + '0' as int) as char
  }

  predicate AllDigits(s: string) {
    forall i | 0 <= i < |s| :: IsDigit(s[i])
  }

  /** The number a digit string denotes, most significant digit first. */
  function Value(s: string): nat
    requires AllDigits(s)
  {
    if s == "" then 0 else 10 * Value(s[..|s| - 1]) + DigitValue(s[|s| - 1])
  }

  /** Rust's `to_string` on an unsigned integer. */
  function PrintNat(n: nat): (s: string)
    ensures s != "" && AllDigits(s) && Value(s) == n
  {
    if n < 10 then
      assert [DigitChar(n)][..0] == "";
      [DigitChar(n)]
    else
      var front := PrintNat(n / 10);
      var s := front + [DigitChar(n % 10)];
      assert s[..|s| - 1] == front;
      s
  }

  /** Rust's `to_string` on a signed integer. */
  function PrintInt(n: int): string {
    if n < 0 then "-" + PrintNat(-n) else PrintNat(n)
  }

  /** The accumulation loop of Rust's `parse`: it stops at a bad digit or an overflow. */
  function CheckedDigits(s: string, acc: nat, max: nat): Option<nat> {
    if s == "" then Some(acc)
    else if !IsDigit(s[0]) then None
    else
      var next := 10 * acc + DigitValue(s[0]);
      if next > max then None else CheckedDigits(s[1..], next, max)
  }

  /** Rust's `str::parse::<u64>`: one optional plus sign, then at least one digit. */
  function ParseU64(s: string): Option<u64> {
    var digits := if |s| > 0 && s[0] == '+' then s[1..] else s;
    if digits == "" then None else
    match CheckedDigits(digits, 0, U64_MAX)
    case Some(n) => CheckedDigitsBound(digits, 0, U64_MAX); Some(n)
    case None => None
  }

  /** Rust's `str::parse::<i32>`: the magnitude is checked against the bound of its sign. */
  function ParseI32(s: string): Option<i32> {
    var signed := |s| > 0 && (s[0] == '+' || s[0] == '-');
    var negative := signed && s[0] == '-';
    var digits := if signed then s[1..] else s;
    if digits == "" then None else
    var max := if negative then -I32_MIN else I32_MAX;
    match CheckedDigits(digits, 0, max)
    case Some(n) => CheckedDigitsBound(digits, 0, max); Some(if negative then 0 - n else n)
    case None => None
  }

  lemma CheckedDigitsBound(s: string, acc: nat, max: nat)
    requires acc <= max
    ensures CheckedDigits(s, acc, max).Some? ==> CheckedDigits(s, acc, max).value <= max
    decreases |s|
  {
  }

  /** Shifting the digits in after `acc`. */
  function Shifted(acc: nat, s: string): nat
    requires AllDigits(s)
    decreases |s|
  {
    if s == "" then acc else Shifted(10 * acc + DigitValue(s[0]), s[1..])
  }

  lemma {:induction false} ShiftedSnoc(acc: nat, s: string)
    requires AllDigits(s) && s != ""
    ensures Shifted(acc, s) == 10 * Shifted(acc, s[..|s| - 1]) + DigitValue(s[|s| - 1])
    decreases |s|
  {
    if |s| > 1 {
      ShiftedSnoc(10 * acc + DigitValue(s[0]), s[1..]);
      assert s[1..][..|s| - 2] == s[..|s| - 1][1..];
    }
  }

  lemma {:induction false} ShiftedIsValue(s: string)
    requires AllDigits(s)
    ensures Shifted(0, s) == Value(s)
    decreases |s|
  {
    if s != "" {
      ShiftedSnoc(0, s);
      ShiftedIsValue(s[..|s| - 1]);
    }
  }

  lemma {:induction false} ShiftedGrows(acc: nat, s: string)
    requires AllDigits(s)
    ensures Shifted(acc, s) >= acc
    decreases |s|
  {
    if s != "" {
      ShiftedGrows(10 * acc + DigitValue(s[0]), s[1..]);
    }
  }

  /** The checked loop finds a number exactly when there are only digits and the total fits. */
  lemma {:induction false} CheckedDigitsMeaning(s: string, acc: nat, max: nat)
    requires acc <= max
    ensures CheckedDigits(s, acc, max) ==
            if AllDigits(s) && Shifted(acc, s) <= max then Some(Shifted(acc, s)) else None
    decreases |s|
  {
    if s != "" && IsDigit(s[0]) {
      var next := 10 * acc + DigitValue(s[0]);
      assert AllDigits(s) <==> AllDigits(s[1..]) by {
        assert forall i | 1 <= i < |s| :: s[i] == s[1..][i - 1];
      }
      if next <= max {
        CheckedDigitsMeaning(s[1..], next, max);
      } else if AllDigits(s) {
        ShiftedGrows(next, s[1..]);
      }
    }
  }

  lemma CheckedFromZero(s: string, max: nat)
    ensures CheckedDigits(s, 0, max) == if AllDigits(s) && Value(s) <= max then Some(Value(s)) else None
  {
    CheckedDigitsMeaning(s, 0, max);
    if AllDigits(s) {
      ShiftedIsValue(s);
    }
  }

  /** Every u64 survives printing and parsing. */
  lemma ParsePrintU64(n: u64)
    ensures ParseU64(PrintNat(n)) == Some(n)
  {
    CheckedFromZero(PrintNat(n), U64_MAX);
  }

  /** Every i32 survives printing and parsing, the most negative one included. */
  lemma ParsePrintI32(n: i32)
    ensures ParseI32(PrintInt(n)) == Some(n)
  {
    if n < 0 {
      var digits := PrintNat(0 - n);
      var s := PrintInt(n);
      assert s[0] == '-' && s[1..] == digits;
      CheckedFromZero(digits, -I32_MIN);
    } else {
      var s := PrintInt(n);
      assert IsDigit(s[0]);
      CheckedFromZero(s, I32_MAX);
    }
  }

  // ----- the Lua side -----

  /** The pattern item `[0-9]+$`, matched one byte at a time. */
  predicate LuaDigitsToEnd(s: string) {
    s != "" && IsDigit(s[0]) && (|s| == 1 || LuaDigitsToEnd(s[1..]))
  }

  lemma {:induction false} LuaDigitsMeaning(s: string)
    ensures LuaDigitsToEnd(s) <==> s != "" && AllDigits(s)
    decreases |s|
  {
    if |s| > 1 {
      LuaDigitsMeaning(s[1..]);
      assert forall i | 1 <= i < |s| :: s[i] == s[1..][i - 1];
    }
  }

  /** `string.match(value, "^[+]?[0-9]+$")`: try the sign, then fall back to none. */
  predicate LuaUintPattern(s: string) {
    (|s| > 0 && s[0] == '+' && LuaDigitsToEnd(s[1..])) || LuaDigitsToEnd(s)
  }

  /** `string.match(value, "^[+-]?[0-9]+$")`. */
  predicate LuaIntPattern(s: string) {
    (|s| > 0 && (s[0] == '+' || s[0] == '-') && LuaDigitsToEnd(s[1..])) || LuaDigitsToEnd(s)
  }

  /** The digits of a text that passed one of the patterns. */
  function LuaDigits(s: string): (digits: string)
    requires LuaIntPattern(s)
    ensures AllDigits(digits)
  {
    LuaDigitsMeaning(s);
    if s[0] == '+' || s[0] == '-' then LuaDigitsMeaning(s[1..]); s[1..] else s
  }

  /** A rounding of integers to doubles: monotone, and exact on the integers up to 2^53. */
  ghost predicate IsDoubleRounding(round: nat -> nat) {
    && (forall n: nat | n <= 9007199254740992 :: round(n) == n)
    && (forall m: nat, n: nat | m <= n :: round(m) <= round(n))
  }

  /** `tonumber` on text that passed one of the patterns: a double, whatever the number of digits. */
  function LuaNumber(round: nat -> nat, s: string): int
    requires LuaIntPattern(s)
  {
    if s[0] == '-' then 0 - round(Value(LuaDigits(s))) else round(Value(LuaDigits(s)))
  }

  /** The scripts' local function `uint` on a field that is there. */
  predicate LuaUint(round: nat -> nat, s: string) {
    LuaUintPattern(s) && 0 <= LuaNumber(round, s) <= 9007199254740991
  }

  /** The scripts' local function `int`. */
  predicate LuaInt(round: nat -> nat, s: string) {
    LuaIntPattern(s) && -2147483648 <= LuaNumber(round, s) <= 2147483647
  }

  /** A range test on the rounded double, up to 2^53-1, is the test on the exact integer. */
  lemma RoundingIsInvisible(round: nat -> nat, n: nat, limit: nat)
    requires IsDoubleRounding(round) && limit <= LUA_SAFE_MAX
    ensures round(n) <= limit <==> n <= limit
    ensures round(n) <= limit ==> round(n) == n
  {
    if n > LUA_SAFE_MAX {
      assert round(LUA_SAFE_MAX + 1) <= round(n);
    }
  }

  /** What Rust reads, restricted to what a double holds exactly. */
  function Stamp(s: string): Option<u64> {
    match ParseU64(s)
    case Some(n) => if n <= LUA_SAFE_MAX then Some(n) else None
    case None => None
  }

  /** Lua `uint` accepts exactly the u64 texts of value at most 2^53-1, with the same value. */
  lemma LuaUintAgrees(round: nat -> nat, s: string)
    requires IsDoubleRounding(round)
    ensures LuaUint(round, s) <==> Stamp(s).Some?
    ensures LuaUint(round, s) ==> LuaNumber(round, s) == Stamp(s).value
  {
    hide IsDoubleRounding;
    LuaDigitsMeaning(s);
    CheckedFromZero(s, U64_MAX);
    if |s| > 0 && s[0] == '+' {
      LuaDigitsMeaning(s[1..]);
      CheckedFromZero(s[1..], U64_MAX);
      assert !AllDigits(s);
    }
    if LuaUintPattern(s) {
      RoundingIsInvisible(round, Value(LuaDigits(s)), LUA_SAFE_MAX);
    }
  }

  /** Lua `int` accepts exactly the i32 texts, with the same value. */
  lemma LuaIntAgrees(round: nat -> nat, s: string)
    requires IsDoubleRounding(round)
    ensures LuaInt(round, s) <==> ParseI32(s).Some?
    ensures LuaInt(round, s) ==> LuaNumber(round, s) == ParseI32(s).value
  {
    hide IsDoubleRounding;
    LuaDigitsMeaning(s);
    CheckedFromZero(s, I32_MAX);
    if |s| > 0 && (s[0] == '+' || s[0] == '-') {
      LuaDigitsMeaning(s[1..]);
      CheckedFromZero(s[1..], I32_MAX);
      CheckedFromZero(s[1..], -I32_MIN);
      assert !AllDigits(s);
    }
    if LuaIntPattern(s) {
      RoundingIsInvisible(round, Value(LuaDigits(s)), I32_MAX);
      RoundingIsInvisible(round, Value(LuaDigits(s)), -I32_MIN);
    }
  }

  // ----- canonical spellings -----

  /** Digits without a sign and without leading zeros. */
  predicate Canonical(s: string) {
    s != "" && AllDigits(s) && (|s| == 1 || s[0] != '0')
  }

  /** The same for a signed number: a minus sign, if any, before a number that is not zero. */
  predicate CanonicalInt(s: string) {
    Canonical(s) || (|s| > 1 && s[0] == '-' && s[1] != '0' && Canonical(s[1..]))
  }

  lemma {:induction false} PrintIsCanonical(n: nat)
    ensures Canonical(PrintNat(n)) && (n > 0 ==> PrintNat(n)[0] != '0')
  {
    if n >= 10 {
      PrintIsCanonical(n / 10);
    }
  }

  lemma {:induction false} LeadingDigitCounts(s: string)
    requires s != "" && AllDigits(s) && s[0] != '0'
    ensures Value(s) > 0
    decreases |s|
  {
    if |s| > 1 {
      LeadingDigitCounts(s[..|s| - 1]);
    } else {
      assert s[..0] == "";
    }
  }

  lemma PrintDigit(d: nat)
    requires d < 10
    ensures PrintNat(d) == [DigitChar(d)]
  {
  }

  lemma PrintSnoc(n: nat, d: nat)
    requires n > 0 && d < 10
    ensures PrintNat(10 * n + d) == PrintNat(n) + [DigitChar(d)]
  {
    assert (10 * n + d) / 10 == n && (10 * n + d) % 10 == d;
  }

  lemma {:induction false} CanonicalIsPrinted(s: string)
    requires Canonical(s)
    ensures PrintNat(Value(s)) == s
    decreases |s|
  {
    hide PrintNat;
    if |s| == 1 {
      assert s[..0] == "";
      PrintDigit(DigitValue(s[0]));
      assert s == [DigitChar(DigitValue(s[0]))];
    } else {
      var front, last := s[..|s| - 1], s[|s| - 1];
      LeadingDigitCounts(front);
      CanonicalIsPrinted(front);
      PrintSnoc(Value(front), DigitValue(last));
      assert s == front + [last] && DigitChar(DigitValue(last)) == last;
    }
  }

  /** A u64 text is what its value prints as exactly when it is canonical. */
  lemma U64Spelling(s: string)
    requires ParseU64(s).Some?
    ensures PrintNat(ParseU64(s).value) == s <==> Canonical(s)
  {
    CheckedFromZero(s, U64_MAX);
    if Canonical(s) {
      CanonicalIsPrinted(s);
    }
    PrintIsCanonical(ParseU64(s).value);
  }

  lemma NegativeSpelling(digits: string)
    requires digits != "" && AllDigits(digits)
    ensures PrintInt(0 - Value(digits)) == "-" + digits <==> digits[0] != '0' && Canonical(digits)
  {
    hide PrintNat, Value;
    var n: int := Value(digits);
    PrintIsCanonical(n);
    PositiveSpelling(digits);
    if digits[0] != '0' {
      LeadingDigitCounts(digits);
    }
    if n > 0 {
      assert PrintInt(0 - n) == "-" + PrintNat(n);
      assert ("-" + PrintNat(n))[1..] == PrintNat(n) && ("-" + digits)[1..] == digits;
    } else {
      assert IsDigit(PrintInt(0 - n)[0]);
    }
  }

  lemma PositiveSpelling(s: string)
    requires s != "" && AllDigits(s)
    ensures PrintNat(Value(s)) == s <==> Canonical(s)
  {
    PrintIsCanonical(Value(s));
    if Canonical(s) {
      CanonicalIsPrinted(s);
    }
  }

  /** An i32 text is what its value prints as exactly when it is canonical. */
  lemma I32Spelling(s: string)
    requires ParseI32(s).Some?
    ensures PrintInt(ParseI32(s).value) == s <==> CanonicalInt(s)
  {
    hide PrintNat, Value;
    if s[0] == '-' {
      CheckedFromZero(s[1..], -I32_MIN);
      NegativeSpelling(s[1..]);
      assert s == "-" + s[1..];
    } else if s[0] == '+' {
      CheckedFromZero(s[1..], I32_MAX);
      assert IsDigit(PrintInt(ParseI32(s).value)[0]);
    } else {
      CheckedFromZero(s, I32_MAX);
      PositiveSpelling(s);
    }
  }
}

module Utf8 {
  predicate In(c: char, low: int, high: int) {
    low <= c as int <= high
  }

  predicate Tail(s: string, from: nat, to: nat)
    requires to <= |s|
  {
    forall i | from <= i < to :: In(s[i], 0x80, 0xBF)
  }

  /** The length of the well-formed sequence that `s` starts with, or 0. */
  function Lead(s: string): (n: nat)
    requires s != ""
    ensures n <= |s|
  {
    if In(s[0], 0, 0x7F) then 1
    else if In(s[0], 0xC2, 0xDF) && |s| >= 2 && Tail(s, 1, 2) then 2
    else if |s| >= 3 && Tail(s, 2, 3)
            && ((In(s[0], 0xE0, 0xE0) && In(s[1], 0xA0, 0xBF))
                || (In(s[0], 0xED, 0xED) && In(s[1], 0x80, 0x9F))
                || ((In(s[0], 0xE1, 0xEC) || In(s[0], 0xEE, 0xEF)) && Tail(s, 1, 2))) then 3
    else if |s| >= 4 && Tail(s, 2, 4)
            && ((In(s[0], 0xF0, 0xF0) && In(s[1], 0x90, 0xBF))
                || (In(s[0], 0xF4, 0xF4) && In(s[1], 0x80, 0x8F))
                || (In(s[0], 0xF1, 0xF3) && Tail(s, 1, 2))) then 4
    else 0
  }

  predicate Valid(s: string) {
    s == "" || (Lead(s) > 0 && Valid(s[Lead(s)..]))
  }

  predicate Ascii(s: string) {
    forall i | 0 <= i < |s| :: s[i] as int < 0x80
  }

  lemma {:induction false} AsciiIsValid(s: string)
    requires Ascii(s)
    ensures Valid(s)
    decreases |s|
  {
    if s != "" {
      AsciiIsValid(s[1..]);
    }
  }
}
