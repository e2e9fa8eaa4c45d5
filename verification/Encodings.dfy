/**
  What the encodings mean, told by tables that decoders use: the numbers that base64url (section 5 of
  RFC 4648) and hexadecimal texts denote, and the texts that UTF-8 (section 3 of RFC 3629) produces.
*/
module Encodings {
  import opened References
  import Utf8

  /** The number that bytes denote after `acc`, most significant first. */
  function FromBytes(acc: nat, d: seq<Byte>): nat
    decreases |d|
  {
    if d == [] then acc else FromBytes(256 * acc + d[0], d[1..])
  }

  // ----- base64url -----

  /** The table of the URL and filename safe alphabet. */
  function Base64UrlValue(c: char): (v: int)
    requires IsBase64UrlChar(c)
    ensures 0 <= v < 64
  {
    if 'A' <= c <= 'Z' then c as int - 'A' as int
    else if 'a' <= c <= 'z' then c as int - 'a' as int + 26
    else if '0' <= c <= '9' then c as int - '0' as int + 52
    else if c == '-' then 62
    else 63
  }

  /** The number that base64url digits denote after `acc`, most significant first. */
  function FromBase64Url(acc: nat, s: string): nat
    requires forall i | 0 <= i < |s| :: IsBase64UrlChar(s[i])
    decreases |s|
  {
    if s == "" then acc else FromBase64Url(64 * acc + Base64UrlValue(s[0]), s[1..])
  }

  /** What the padding bits of the last digit multiply by. */
  function Padding(n: nat): nat {
    if n % 3 == 0 then 1 else if n % 3 == 1 then 16 else 4
  }

  lemma SextetValue(n: int)
    requires 0 <= n < 64
    ensures Base64UrlValue(Sextet(n)) == n
  {
  }

  lemma TwoDigits(acc: nat, s: string)
    requires |s| >= 2 && forall i | 0 <= i < |s| :: IsBase64UrlChar(s[i])
    ensures FromBase64Url(acc, s) == FromBase64Url(4096 * acc + 64 * Base64UrlValue(s[0]) + Base64UrlValue(s[1]), s[2..])
  {
    assert s[1..][1..] == s[2..];
  }

  lemma TwoBytes(acc: nat, d: seq<Byte>)
    requires |d| >= 2
    ensures FromBytes(acc, d) == FromBytes(65536 * acc + 256 * (d[0] as int) + d[1], d[2..])
  {
    assert d[1..][1..] == d[2..];
  }

  /** Four digits denote the three bytes they were made from. */
  lemma QuadValue(a: Byte, b: Byte, c: Byte)
    ensures var q := Quad(a, b, c);
            && 64 * Base64UrlValue(q[0]) + Base64UrlValue(q[1]) == 16 * a + b / 16
            && 64 * Base64UrlValue(q[2]) + Base64UrlValue(q[3]) == b % 16 * 256 + c
  {
    SextetValue(a / 4);
    SextetValue(a % 4 * 16 + b / 16);
    SextetValue(b % 16 * 4 + c / 64);
    SextetValue(c % 64);
  }

  lemma ThreeBytes(acc: nat, d: seq<Byte>)
    requires |d| >= 3
    ensures FromBytes(acc, d) == FromBytes(16777216 * acc + 65536 * (d[0] as int) + 256 * (d[1] as int) + d[2], d[3..])
  {
    TwoBytes(acc, d);
    assert d[2..][1..] == d[3..];
  }

  /** The digits of a whole group add the group's three bytes. */
  lemma GroupDenotes(acc: nat, a: Byte, b: Byte, c: Byte, rest: string)
    requires forall i | 0 <= i < |rest| :: IsBase64UrlChar(rest[i])
    ensures FromBase64Url(acc, Quad(a, b, c) + rest)
         == FromBase64Url(16777216 * acc + 65536 * (a as int) + 256 * (b as int) + c, rest)
  {
    hide Quad, Base64UrlValue;
    var s := Quad(a, b, c) + rest;
    QuadValue(a, b, c);
    TwoDigits(acc, s);
    assert s[2..] == Quad(a, b, c)[2..] + rest;
    TwoDigits(4096 * acc + 64 * Base64UrlValue(s[0]) + Base64UrlValue(s[1]), s[2..]);
    assert s[2..][2..] == rest && s[2..][0] == Quad(a, b, c)[2] && s[2..][1] == Quad(a, b, c)[3];
    GroupArithmetic(acc, a, b, c);
  }

  lemma GroupArithmetic(acc: nat, a: Byte, b: Byte, c: Byte)
    ensures 4096 * (4096 * acc + (16 * (a as int) + b as int / 16)) + (b as int % 16 * 256 + c)
         == 16777216 * acc + 65536 * (a as int) + 256 * (b as int) + c
  {
    var high, low := b as int / 16, b as int % 16;
    assert b as int == 16 * high + low;
  }

  lemma LastByte(acc: nat, a: Byte)
    ensures FromBase64Url(acc, Quad(a, 0, 0)[..2]) == 16 * FromBytes(acc, [a])
  {
    var s := Quad(a, 0, 0)[..2];
    QuadValue(a, 0, 0);
    TwoDigits(acc, s);
    assert s[2..] == "" && [a][1..] == [];
  }

  lemma LastBytes(acc: nat, a: Byte, b: Byte)
    ensures FromBase64Url(acc, Quad(a, b, 0)[..3]) == 4 * FromBytes(acc, [a, b])
  {
    var s := Quad(a, b, 0)[..3];
    QuadValue(a, b, 0);
    SextetValue(b % 16 * 4);
    TwoDigits(acc, s);
    TwoBytes(acc, [a, b]);
    assert s[2..] == [Sextet(b % 16 * 4)] && s[2..][1..] == "" && [a, b][2..] == [];
    var high, low := b as int / 16, b as int % 16;
    assert b as int == 16 * high + low;
  }

  lemma {:induction false} Base64UrlDenotesAfter(acc: nat, d: seq<Byte>)
    ensures FromBase64Url(acc, Base64Url(d)) == Padding(|d|) * FromBytes(acc, d)
    decreases |d|
  {
    hide Quad, Base64UrlValue;
    if |d| == 1 {
      LastByte(acc, d[0]);
      assert d == [d[0]];
    } else if |d| == 2 {
      LastBytes(acc, d[0], d[1]);
      assert d == [d[0], d[1]];
    } else if |d| > 2 {
      GroupDenotes(acc, d[0], d[1], d[2], Base64Url(d[3..]));
      ThreeBytes(acc, d);
      Base64UrlDenotesAfter(16777216 * acc + 65536 * (d[0] as int) + 256 * (d[1] as int) + d[2], d[3..]);
    }
  }

  /** Base64url digits denote the number that the bytes denote, shifted by the padding bits. */
  lemma Base64UrlDenotes(d: seq<Byte>)
    ensures FromBase64Url(0, Base64Url(d)) == Padding(|d|) * FromBytes(0, d)
  {
    Base64UrlDenotesAfter(0, d);
  }

  /** So an S256 challenge (section 4.2 of RFC 7636) denotes its verifier's digest and two zero bits. */
  lemma ChallengeDenotes(sha: Hash, verifier: string)
    ensures |Challenge(sha, verifier)| == 43 && FromBase64Url(0, Challenge(sha, verifier)) == 4 * FromBytes(0, sha(verifier))
  {
    Base64UrlDenotes(sha(verifier));
  }

  // ----- hexadecimal -----

  function HexValue(c: char): (v: int)
    requires IsLookupChar(c)
    ensures 0 <= v < 16
  {
    if '0' <= c <= '9' then c as int - '0' as int else c as int - 'a' as int + 10
  }

  function FromHex(acc: nat, s: string): nat
    requires forall i | 0 <= i < |s| :: IsLookupChar(s[i])
    decreases |s|
  {
    if s == "" then acc else FromHex(16 * acc + HexValue(s[0]), s[1..])
  }

  lemma {:induction false} HexDenotesAfter(acc: nat, d: seq<Byte>)
    ensures FromHex(acc, Hex(d)) == FromBytes(acc, d)
    decreases |d|
  {
    if d != [] {
      var s := Hex(d);
      assert s[1..][1..] == Hex(d[1..]) && s[1..][0] == HexChar(d[0] % 16);
      assert HexValue(HexChar(d[0] / 16)) == d[0] / 16 && HexValue(HexChar(d[0] % 16)) == d[0] % 16;
      HexDenotesAfter(256 * acc + d[0], d[1..]);
    }
  }

  /** A lookup is 64 hexadecimal digits that denote the reference's digest. */
  lemma LookupDenotes(sha: Hash, reference: string)
    ensures |LookupOf(sha, reference)| == 64 && FromHex(0, LookupOf(sha, reference)) == FromBytes(0, sha(reference))
  {
    HexDenotesAfter(0, sha(reference));
  }

  // ----- UTF-8 -----

  predicate IsScalar(n: int) {
    0 <= n <= 0xD7FF || 0xE000 <= n <= 0x10FFFF
  }

  /** The octets of a Unicode scalar value. */
  function Octets(n: int): (s: string)
    requires IsScalar(n)
    ensures 1 <= |s| <= 4
  {
    if n < 0x80 then [n as char]
    else if n < 0x800 then [(0xC0 + n / 64) as char, (0x80 + n % 64) as char]
    else if n < 0x10000 then [(0xE0 + n / 64 / 64) as char, (0x80 + n / 64 % 64) as char, (0x80 + n % 64) as char]
    else [(0xF0 + n / 64 / 64 / 64) as char, (0x80 + n / 64 / 64 % 64) as char, (0x80 + n / 64 % 64) as char, (0x80 + n % 64) as char]
  }

  function Utf8Of(ns: seq<int>): string
    requires forall n | n in ns :: IsScalar(n)
  {
    if ns == [] then "" else Octets(ns[0]) + Utf8Of(ns[1..])
  }

  lemma LeadOfOctets(n: int, rest: string)
    requires IsScalar(n)
    ensures Utf8.Lead(Octets(n) + rest) == |Octets(n)|
  {
  }

  lemma {:induction false} Utf8OfIsValid(ns: seq<int>)
    requires forall n | n in ns :: IsScalar(n)
    ensures Utf8.Valid(Utf8Of(ns))
  {
    if ns != [] {
      LeadOfOctets(ns[0], Utf8Of(ns[1..]));
      assert (Octets(ns[0]) + Utf8Of(ns[1..]))[|Octets(ns[0])|..] == Utf8Of(ns[1..]);
      Utf8OfIsValid(ns[1..]);
    }
  }

  /** The scalar value that a well-formed sequence of `k` octets encodes. */
  function ScalarOf(s: string, k: nat): int
    requires 1 <= k <= 4 && k <= |s|
  {
    if k == 1 then s[0] as int
    else if k == 2 then Six(s[0] as int - 0xC0, s[1])
    else if k == 3 then Six(Six(s[0] as int - 0xE0, s[1]), s[2])
    else Six(Six(Six(s[0] as int - 0xF0, s[1]), s[2]), s[3])
  }

  /** Six more bits from a continuation octet. */
  function Six(n: int, c: char): int {
    64 * n + (c as int - 0x80)
  }

  lemma SixBits(n: int, c: char)
    requires Utf8.In(c, 0x80, 0xBF)
    ensures Six(n, c) / 64 == n && 0x80 + Six(n, c) % 64 == c as int
  {
  }

  lemma LeadIsOctets(s: string)
    requires s != "" && Utf8.Lead(s) > 0
    ensures Utf8.Lead(s) <= 4
    ensures var n := ScalarOf(s, Utf8.Lead(s)); IsScalar(n) && Octets(n) == s[..Utf8.Lead(s)]
  {
    var k := Utf8.Lead(s);
    if k == 2 {
      TwoOctets(s);
    } else if k == 3 {
      ThreeOctets(s);
    } else if k == 4 {
      FourOctets(s);
    }
  }

  lemma TwoOctets(s: string)
    requires s != "" && Utf8.Lead(s) == 2
    ensures IsScalar(ScalarOf(s, 2)) && Octets(ScalarOf(s, 2)) == s[..2]
  {
    SixBits(s[0] as int - 0xC0, s[1]);
  }

  lemma ThreeOctets(s: string)
    requires s != "" && Utf8.Lead(s) == 3
    ensures IsScalar(ScalarOf(s, 3)) && Octets(ScalarOf(s, 3)) == s[..3]
  {
    var n1 := Six(s[0] as int - 0xE0, s[1]);
    assert Utf8.In(s[1], 0x80, 0xBF) && Utf8.In(s[2], 0x80, 0xBF);
    SixBits(s[0] as int - 0xE0, s[1]);
    SixBits(n1, s[2]);
  }

  lemma FourOctets(s: string)
    requires s != "" && Utf8.Lead(s) == 4
    ensures IsScalar(ScalarOf(s, 4)) && Octets(ScalarOf(s, 4)) == s[..4]
  {
    var n1 := Six(s[0] as int - 0xF0, s[1]);
    var n2 := Six(n1, s[2]);
    assert Utf8.In(s[1], 0x80, 0xBF) && Utf8.In(s[2], 0x80, 0xBF) && Utf8.In(s[3], 0x80, 0xBF);
    SixBits(s[0] as int - 0xF0, s[1]);
    SixBits(n1, s[2]);
    SixBits(n2, s[3]);
  }

  lemma {:induction false} ValidIsUtf8Of(s: string) returns (ns: seq<int>)
    requires Utf8.Valid(s)
    ensures (forall n | n in ns :: IsScalar(n)) && Utf8Of(ns) == s
    decreases |s|
  {
    if s == "" {
      return [];
    }
    var k := Utf8.Lead(s);
    LeadIsOctets(s);
    var rest := ValidIsUtf8Of(s[k..]);
    ns := [ScalarOf(s, k)] + rest;
    assert ns[1..] == rest && s == s[..k] + s[k..];
  }

  /** A text is valid exactly if it is the UTF-8 form of some Unicode scalar values. */
  lemma ValidMeansUtf8(s: string)
    ensures Utf8.Valid(s) <==> exists ns: seq<int> :: (forall n | n in ns :: IsScalar(n)) && Utf8Of(ns) == s
  {
    if Utf8.Valid(s) {
      var ns := ValidIsUtf8Of(s);
    }
    forall ns: seq<int> | (forall n | n in ns :: IsScalar(n)) && Utf8Of(ns) == s
      ensures Utf8.Valid(s)
    {
      Utf8OfIsValid(ns);
    }
  }
}
