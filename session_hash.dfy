/**
 * The text form of the login session hash: the SHA-512 digest bytes read as a
 * big-endian two's-complement integer (`new BigInteger(byte[])`) and written in
 * lowercase base 16 with no leading zeros and a leading `-` when negative
 * (`BigInteger.toString(16)`).
 *
 * A Java byte is signed; here a byte is its unsigned reading 0..255, so the
 * sign bit of the first byte is set exactly when that byte is at least 128.
 */
module SessionHash {
  import opened Wrappers

  type byte = b: int | 0 <= b < 256

  /** A SHA-512 digest is always 64 bytes long. */
  const DigestLength := 64
  type Digest = d: seq<byte> | |d| == DigestLength witness seq(DigestLength, _ => 0)

  function Pow256(n: nat): (p: nat)
    ensures p > 0
  {
    if n == 0 then 1 else 256 * Pow256(n - 1)
  }

  lemma MulLeft(x: int, y: int, p: int)
    requires 0 <= x <= y && 0 <= p
    ensures x * p <= y * p
  {
  }

  /** The big-endian unsigned value of a byte string. */
  function Magnitude(bs: seq<byte>): (v: nat)
    ensures v < Pow256(|bs|)
  {
    if |bs| == 0 then 0
    else
      var p := Pow256(|bs| - 1);
      MulLeft(bs[0], 255, p);
      bs[0] * p + Magnitude(bs[1..])
  }

  /**
   * The value `new BigInteger(bs)` holds: the big-endian two's-complement
   * reading of `bs` (Java rejects the empty array).
   */
  function TwosComplement(bs: seq<byte>): (v: int)
    requires |bs| > 0
    ensures v < 0 <==> bs[0] >= 128
    ensures -128 * Pow256(|bs| - 1) <= v < 128 * Pow256(|bs| - 1)
    ensures v == Magnitude(bs) || v == Magnitude(bs) - Pow256(|bs|)
  {
    var p := Pow256(|bs| - 1);
    assert Magnitude(bs) == bs[0] * p + Magnitude(bs[1..]);
    if bs[0] >= 128 then
      MulLeft(128, bs[0], p);
      Magnitude(bs) - 256 * p
    else
      MulLeft(bs[0], 127, p);
      Magnitude(bs)
  }

  predicate IsHexDigit(c: char) {
    '0' <= c <= '9' || 'a' <= c <= 'f'
  }

  predicate AllHexDigits(s: string) {
    forall i | 0 <= i < |s| :: IsHexDigit(s[i])
  }

  function DigitValue(c: char): (d: nat)
    requires IsHexDigit(c)
    ensures d < 16
  {
    if c <= '9' then c as int - '0' as int else c as int - 'a' as int + 10
  }

  /** The lowercase hexadecimal digit for `d`. */
  function HexDigit(d: nat): (c: char)
    requires d < 16
    ensures IsHexDigit(c) && DigitValue(c) == d
    ensures c == '0' <==> d == 0
  {
    if d < 10 then ('0' as int + d) as char else ('a' as int + d - 10) as char
  }

  /** The base-16 digits of `n`, most significant first. */
  function Hex(n: nat): (s: string)
    ensures |s| > 0 && AllHexDigits(s)
    ensures s[0] == '0' <==> n == 0
    ensures n == 0 ==> s == "0"
    decreases n
  {
    if n < 16 then [HexDigit(n)] else Hex(n / 16) + [HexDigit(n % 16)]
  }

  /**
   * `BigInteger.toString(16)` of `v`: canonical, and signed exactly when `v`
   * is negative.
   */
  function SignedHex(v: int): (s: string)
    ensures Canonical(s)
    ensures s[0] == '-' <==> v < 0
  {
    if v < 0 then
      var s := "-" + Hex(-v);
      assert s[1..] == Hex(-v);
      s
    else Hex(v)
  }

  /**
   * The canonical text `BigInteger.toString(16)` produces: an optional `-`,
   * then one or more lowercase hex digits without a leading zero, and no
   * negative zero.
   */
  predicate Canonical(s: string) {
    var digits := if |s| > 0 && s[0] == '-' then s[1..] else s;
    && |digits| > 0
    && AllHexDigits(digits)
    && (digits[0] == '0' ==> digits == "0")
    && (|s| > 0 && s[0] == '-' ==> digits != "0")
  }

  /** The session hash sent to the session server (line 105). */
  function HashText(digest: Digest): (s: string)
    ensures Canonical(s)
    ensures s[0] == '-' <==> digest[0] >= 128
    ensures forall i | 0 <= i < |s| :: s[i] == '-' || IsHexDigit(s[i])
  {
    SignedHex(TwosComplement(digest))
  }

  /** The value of a string of hex digits, most significant first. */
  function HexValue(s: string): (n: nat)
    requires AllHexDigits(s)
  {
    if |s| == 0 then 0 else HexValue(s[..|s| - 1]) * 16 + DigitValue(s[|s| - 1])
  }

  /**
   * Reads back an optional `-` and one or more lowercase hex digits: the
   * inverse of `SignedHex`, used to state what the hash text denotes.
   */
  function ParseSignedHex(s: string): (r: Option<int>)
  {
    if |s| > 1 && s[0] == '-' && AllHexDigits(s[1..]) then
      var magnitude: int := HexValue(s[1..]);
      Some(-magnitude)
    else if |s| > 0 && AllHexDigits(s) then Some(HexValue(s))
    else None
  }

  lemma {:induction false} HexRoundTrip(n: nat)
    ensures HexValue(Hex(n)) == n
    decreases n
  {
    if n >= 16 {
      HexRoundTrip(n / 16);
      var s := Hex(n / 16);
      var t := s + [HexDigit(n % 16)];
      assert t[..|t| - 1] == s;
    }
  }

  /** Parsing the text of any integer gives that integer back. */
  lemma SignedHexRoundTrip(v: int)
    ensures ParseSignedHex(SignedHex(v)) == Some(v)
  {
    if v < 0 {
      var digits := Hex(-v);
      var s := "-" + digits;
      assert s[1..] == digits;
      assert |s| > 1 && s[0] == '-' && AllHexDigits(s[1..]);
      HexRoundTrip(-v);
    } else {
      var digits := Hex(v);
      assert IsHexDigit(digits[0]);
      assert digits[0] != '-';
      HexRoundTrip(v);
    }
  }

  /** Parsing the hash text back gives the signed value of the digest. */
  lemma HashTextRoundTrip(digest: Digest)
    ensures ParseSignedHex(HashText(digest)) == Some(TwosComplement(digest))
  {
    SignedHexRoundTrip(TwosComplement(digest));
  }

  /** A digit times a positive weight plus a remainder below the weight determines both. */
  lemma DigitAndRemainder(x: nat, y: nat, p: nat, rx: nat, ry: nat)
    requires rx < p && ry < p && x * p + rx == y * p + ry
    ensures x == y && rx == ry
  {
    if x < y {
      MulLeft(x + 1, y, p);
    } else if y < x {
      MulLeft(y + 1, x, p);
    }
  }

  lemma {:induction false} MagnitudeInjective(a: seq<byte>, b: seq<byte>)
    requires |a| == |b| && Magnitude(a) == Magnitude(b)
    ensures a == b
  {
    if |a| > 0 {
      DigitAndRemainder(a[0], b[0], Pow256(|a| - 1), Magnitude(a[1..]), Magnitude(b[1..]));
      MagnitudeInjective(a[1..], b[1..]);
      assert a == [a[0]] + a[1..];
      assert b == [b[0]] + b[1..];
    }
  }

  /** Distinct digests give distinct hash texts. */
  lemma HashTextInjective(a: Digest, b: Digest)
    requires a != b
    ensures HashText(a) != HashText(b)
  {
    if HashText(a) == HashText(b) {
      HashTextRoundTrip(a);
      HashTextRoundTrip(b);
      MagnitudeInjective(a, b);
    }
  }
}
