/**
  Reference values, their lookups and the Redis keys made from them.

  SHA-256 is a parameter: any function from byte strings to 32 bytes.  Statements that
  need certain references to have different digests say which.
*/
module References {
  type Byte = b: int | 0 <= b < 256

  type Digest = d: seq<Byte> | |d| == 32 witness seq(32, _ => 0)

  type Hash = string -> Digest

  /** No two of these references have the same digest. */
  ghost predicate CollisionFree(sha: Hash, references: set<string>) {
    forall a, b | a in references && b in references && sha(a) == sha(b) :: a == b
  }

  // ----- hexadecimal lookups -----

  predicate IsLookupChar(c: char) {
    '0' <= c <= '9' || 'a' <= c <= 'f'
  }

  /** Rust's `is_lookup`. */
  predicate IsLookup(s: string) {
    |s| == 64 && forall i | 0 <= i < |s| :: IsLookupChar(s[i])
  }

  /** `string.match(value, "^[0-9a-f][0-9a-f]*$")`, one byte at a time. */
  predicate LuaHexToEnd(s: string) {
    s != "" && IsLookupChar(s[0]) && (|s| == 1 || LuaHexToEnd(s[1..]))
  }

  /** The scripts' local function `lookup`. */
  predicate LuaLookup(s: string) {
    LuaHexToEnd(s) && |s| == 64
  }

  lemma {:induction false} LuaHexMeaning(s: string)
    ensures LuaHexToEnd(s) <==> s != "" && forall i | 0 <= i < |s| :: IsLookupChar(s[i])
    decreases |s|
  {
    if |s| > 1 {
      LuaHexMeaning(s[1..]);
      assert forall i | 1 <= i < |s| :: s[i] == s[1..][i - 1];
    }
  }

  /** The two validators accept the same byte strings. */
  lemma LuaLookupAgrees(s: string)
    ensures LuaLookup(s) <==> IsLookup(s)
  {
    LuaHexMeaning(s);
  }

  function HexChar(n: int): (c: char)
    requires 0 <= n < 16
    ensures IsLookupChar(c)
  {
    if n < 10 then (n + '0' as int) as char else (n - 10 + 'a' as int) as char
  }

  /** Two lower-case digits per byte, as `{byte:02x}` prints them. */
  function Hex(d: seq<Byte>): (s: string)
    ensures |s| == 2 * |d| && forall i | 0 <= i < |s| :: IsLookupChar(s[i])
  {
    if d == [] then "" else [HexChar(d[0] / 16), HexChar(d[0] % 16)] + Hex(d[1..])
  }

  lemma {:induction false} HexInjective(d: seq<Byte>, e: seq<Byte>)
    requires Hex(d) == Hex(e)
    ensures d == e
    decreases |d|
  {
    assert |d| == |e|;
    if d != [] {
      var x, y := Hex(d), Hex(e);
      assert x[0] == y[0] && x[1] == y[1];
      assert d[0] == e[0];
      assert x[2..] == Hex(d[1..]) && y[2..] == Hex(e[1..]);
      HexInjective(d[1..], e[1..]);
      assert d == [d[0]] + d[1..] && e == [e[0]] + e[1..];
    }
  }

  /** `reference_value_lookup`: the digest of a reference in hexadecimal. */
  function LookupOf(sha: Hash, reference: string): (s: string)
    ensures IsLookup(s)
  {
    Hex(sha(reference))
  }

  lemma LookupInjective(sha: Hash, a: string, b: string)
    ensures LookupOf(sha, a) == LookupOf(sha, b) ==> sha(a) == sha(b)
  {
    if LookupOf(sha, a) == LookupOf(sha, b) {
      HexInjective(sha(a), sha(b));
    }
  }

  // ----- base64url without padding (section 5 of RFC 4648) -----

  predicate IsBase64UrlChar(c: char) {
    'A' <= c <= 'Z' || 'a' <= c <= 'z' || '0' <= c <= '9' || c == '-' || c == '_'
  }

  function Sextet(n: int): (c: char)
    requires 0 <= n < 64
    ensures IsBase64UrlChar(c)
  {
    if n < 26 then (n + 'A' as int) as char
    else if n < 52 then (n - 26 + 'a' as int) as char
    else if n < 62 then (n - 52 + '0' as int) as char
    else if n == 62 then '-' else '_'
  }

  /** Three bytes as four characters. */
  function Quad(a: Byte, b: Byte, c: Byte): (s: string)
    ensures |s| == 4 && forall i | 0 <= i < 4 :: IsBase64UrlChar(s[i])
  {
    [Sextet(a / 4), Sextet(a % 4 * 16 + b / 16), Sextet(b % 16 * 4 + c / 64), Sextet(c % 64)]
  }

  function Base64Url(d: seq<Byte>): (s: string)
    ensures forall i | 0 <= i < |s| :: IsBase64UrlChar(s[i])
    ensures |s| == (4 * |d| + 2) / 3
  {
    if |d| == 0 then ""
    else if |d| == 1 then Quad(d[0], 0, 0)[..2]
    else if |d| == 2 then Quad(d[0], d[1], 0)[..3]
    else Quad(d[0], d[1], d[2]) + Base64Url(d[3..])
  }

  lemma SextetInjective(m: int, n: int)
    requires 0 <= m < 64 && 0 <= n < 64 && Sextet(m) == Sextet(n)
    ensures m == n
  {
  }

  /** The low bits of one byte and the high bits of the next come apart again. */
  lemma SplitBits(low: int, high: int, low': int, high': int)
    ensures 0 <= high < 16 && 0 <= high' < 16 && low * 16 + high == low' * 16 + high' ==> low == low' && high == high'
    ensures 0 <= high < 4 && 0 <= high' < 4 && low * 4 + high == low' * 4 + high' ==> low == low' && high == high'
  {
  }

  /** The first two, three or four characters of a group give back one, two or three bytes. */
  lemma QuadInjective(a: Byte, b: Byte, c: Byte, a': Byte, b': Byte, c': Byte)
    ensures b / 16 == b' / 16 && Quad(a, b, c)[..2] == Quad(a', b', c')[..2] ==> a == a'
    ensures c / 64 == c' / 64 && Quad(a, b, c)[..3] == Quad(a', b', c')[..3] ==> a == a' && b == b'
    ensures Quad(a, b, c) == Quad(a', b', c') ==> a == a' && b == b' && c == c'
  {
    var q, q' := Quad(a, b, c), Quad(a', b', c');
    if q[..2] == q'[..2] {
      assert q[0] == q[..2][0] && q[1] == q[..2][1] && q'[0] == q'[..2][0] && q'[1] == q'[..2][1];
      SextetInjective(a / 4, a' / 4);
      SextetInjective(a % 4 * 16 + b / 16, a' % 4 * 16 + b' / 16);
      SplitBits(a % 4, b / 16, a' % 4, b' / 16);
    }
    if q[..3] == q'[..3] {
      assert q[..2] == q[..3][..2] && q'[..2] == q'[..3][..2];
      assert q[2] == q[..3][2] && q'[2] == q'[..3][2];
      SextetInjective(b % 16 * 4 + c / 64, b' % 16 * 4 + c' / 64);
      SplitBits(b % 16, c / 64, b' % 16, c' / 64);
    }
    if q == q' {
      SextetInjective(c % 64, c' % 64);
    }
  }

  lemma SplitEqual(a: string, b: string, a': string, b': string)
    requires a + b == a' + b' && |a| == |a'|
    ensures a == a' && b == b'
  {
    assert a == (a + b)[..|a|] && b == (a + b)[|a|..];
    assert a' == (a' + b')[..|a|] && b' == (a' + b')[|a|..];
  }

  lemma {:induction false} Base64UrlInjective(d: seq<Byte>, e: seq<Byte>)
    requires |d| == |e| && Base64Url(d) == Base64Url(e)
    ensures d == e
    decreases |d|
  {
    if |d| == 1 {
      QuadInjective(d[0], 0, 0, e[0], 0, 0);
    } else if |d| == 2 {
      QuadInjective(d[0], d[1], 0, e[0], e[1], 0);
    } else if |d| > 2 {
      SplitEqual(Quad(d[0], d[1], d[2]), Base64Url(d[3..]), Quad(e[0], e[1], e[2]), Base64Url(e[3..]));
      QuadInjective(d[0], d[1], d[2], e[0], e[1], e[2]);
      Base64UrlInjective(d[3..], e[3..]);
      assert d == d[..3] + d[3..] && e == e[..3] + e[3..];
    }
  }

  /** The foundation's `validate_fixed_reference_value` and the portal's `is_fixed_reference`. */
  predicate IsFixedReference(s: string) {
    |s| == 43 && forall i | 0 <= i < |s| :: IsBase64UrlChar(s[i])
  }

  /** `validate_ascii_byte_range` with the bounds 43 and 128 of section 4.1 of RFC 7636. */
  predicate IsCodeVerifier(s: string) {
    43 <= |s| <= 128 && forall i | 0 <= i < |s| :: s[i] as int < 0x80
  }

  /** Whatever the random source fills in, the encoded reference passes every validator it meets. */
  lemma ReferenceIsAccepted(d: Digest)
    ensures IsFixedReference(Base64Url(d)) && IsCodeVerifier(Base64Url(d))
  {
    var s := Base64Url(d);
    forall i | 0 <= i < |s|
      ensures s[i] as int < 0x80
    {
      assert IsBase64UrlChar(s[i]);
    }
  }

  /** Verifiers are accepted at every length from 43 to 128, and at no other. */
  lemma VerifierLengths(n: nat)
    ensures (exists s: string :: |s| == n && IsCodeVerifier(s)) <==> 43 <= n <= 128
  {
    var s := seq(n, i => 'a');
    assert 43 <= n <= 128 ==> |s| == n && IsCodeVerifier(s);
  }

  /** The S256 challenge (section 4.2 of RFC 7636). */
  function Challenge(sha: Hash, verifier: string): (s: string)
    ensures IsFixedReference(s)
  {
    ReferenceIsAccepted(sha(verifier));
    Base64Url(sha(verifier))
  }

  /** Challenges are equal exactly when the digests are (section 4.6 of RFC 7636). */
  lemma ChallengeInjective(sha: Hash, a: string, b: string)
    ensures Challenge(sha, a) == Challenge(sha, b) <==> sha(a) == sha(b)
  {
    if Challenge(sha, a) == Challenge(sha, b) {
      Base64UrlInjective(sha(a), sha(b));
    }
  }

  // ----- keys -----

  datatype Family = External | Session | Handoff | Logout

  const SESSION_PREFIX: string := "auth:session:"

  function Prefix(f: Family): string {
    match f
    case External => "auth:external:"
    case Session => SESSION_PREFIX
    case Handoff => "auth:handoff:"
    case Logout => "auth:logout:"
  }

  function KeyOf(f: Family, lookup: string): string {
    Prefix(f) + lookup
  }

  /** Keys of different families never coincide, and within a family they differ with the lookup. */
  lemma KeyInjective(f: Family, a: string, g: Family, b: string)
    requires KeyOf(f, a) == KeyOf(g, b)
    ensures f == g && a == b
  {
    var x, y := KeyOf(f, a), KeyOf(g, b);
    assert x[5] == Prefix(f)[5] && y[5] == Prefix(g)[5];
    assert f == g;
    assert x[|Prefix(f)|..] == a && y[|Prefix(g)|..] == b;
  }
}
