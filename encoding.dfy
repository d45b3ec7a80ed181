/**
 * Byte-level encodings used by the login challenge: `str.encode('utf-8')` and
 * `bytes.hex()`.
 */
module Encoding {
  import opened Wrappers

  type byte = b: int | 0 <= b < 256

  // ---- UTF-8 ----

  /** The UTF-8 encoding of one Unicode scalar value. */
  function EncodeScalar(c: char): (bs: seq<byte>)
    ensures 1 <= |bs| <= 4
  {
    var n := c as int;
    if n < 0x80 then [n]
    else if n < 0x800 then [0xC0 + n / 64, 0x80 + n % 64]
    else if n < 0x10000 then [0xE0 + n / 4096, 0x80 + (n / 64) % 64, 0x80 + n % 64]
    else [0xF0 + n / 262144, 0x80 + (n / 4096) % 64, 0x80 + (n / 64) % 64, 0x80 + n % 64]
  }

  /** `s.encode('utf-8')`. */
  function Utf8(s: string): (bs: seq<byte>)
    ensures |bs| >= |s|
    decreases |s|
  {
    if s == [] then [] else EncodeScalar(s[0]) + Utf8(s[1..])
  }

  predicate IsContinuation(b: byte) {
    0x80 <= b < 0xC0
  }

  predicate IsScalar(n: int) {
    (0 <= n < 0xD800) || (0xE000 <= n < 0x110000)
  }

  /** Decodes the first character of `bs`: the character and the number of bytes it took. */
  function DecodeScalar(bs: seq<byte>): (r: Option<(char, nat)>)
    requires bs != []
    ensures r.Some? ==> 1 <= r.value.1 <= |bs|
  {
    var b0: int := bs[0];
    if b0 < 0x80 then Some((b0 as char, 1))
    else if 0xC0 <= b0 < 0xE0 && |bs| >= 2 && IsContinuation(bs[1]) then
      var n: int := (b0 - 0xC0) * 64 + (bs[1] as int - 0x80);
      if IsScalar(n) then Some((n as char, 2)) else None
    else if 0xE0 <= b0 < 0xF0 && |bs| >= 3 && IsContinuation(bs[1]) && IsContinuation(bs[2]) then
      var n: int := (b0 - 0xE0) * 4096 + (bs[1] as int - 0x80) * 64 + (bs[2] as int - 0x80);
      if IsScalar(n) then Some((n as char, 3)) else None
    else if 0xF0 <= b0 < 0xF8 && |bs| >= 4 && IsContinuation(bs[1]) && IsContinuation(bs[2])
            && IsContinuation(bs[3]) then
      var n: int := (b0 - 0xF0) * 262144 + (bs[1] as int - 0x80) * 4096 + (bs[2] as int - 0x80) * 64
                    + (bs[3] as int - 0x80);
      if IsScalar(n) then Some((n as char, 4)) else None
    else None
  }

  /** `bs.decode('utf-8')`, lenient about over-long forms; None when the bytes are not UTF-8. */
  function Utf8Decode(bs: seq<byte>): Option<string>
    decreases |bs|
  {
    if bs == [] then Some([])
    else match DecodeScalar(bs)
      case None => None
      case Some((c, n)) =>
        match Utf8Decode(bs[n..])
        case None => None
        case Some(rest) => Some([c] + rest)
  }

  lemma DecodeTwo(n: int, rest: seq<byte>)
    requires 0x80 <= n < 0x800 && IsScalar(n)
    ensures DecodeScalar([0xC0 + n / 64, 0x80 + n % 64] + rest) == Some((n as char, 2))
  {
    var bs: seq<byte> := [0xC0 + n / 64, 0x80 + n % 64] + rest;
    assert bs[0] == 0xC0 + n / 64 && bs[1] == 0x80 + n % 64;
    assert (n / 64) * 64 + n % 64 == n;
  }

  lemma DecodeThree(n: int, rest: seq<byte>)
    requires 0x800 <= n < 0x10000 && IsScalar(n)
    ensures DecodeScalar([0xE0 + n / 4096, 0x80 + (n / 64) % 64, 0x80 + n % 64] + rest) == Some((n as char, 3))
  {
    var bs: seq<byte> := [0xE0 + n / 4096, 0x80 + (n / 64) % 64, 0x80 + n % 64] + rest;
    assert bs[0] == 0xE0 + n / 4096 && bs[1] == 0x80 + (n / 64) % 64 && bs[2] == 0x80 + n % 64;
    var q := n / 64;
    assert q * 64 + n % 64 == n;
    assert (q / 64) * 64 + q % 64 == q;
    assert q / 64 == n / 4096;
  }

  lemma DecodeFour(n: int, rest: seq<byte>)
    requires 0x10000 <= n && IsScalar(n)
    ensures DecodeScalar([0xF0 + n / 262144, 0x80 + (n / 4096) % 64, 0x80 + (n / 64) % 64, 0x80 + n % 64] + rest)
            == Some((n as char, 4))
  {
    var bs: seq<byte> := [0xF0 + n / 262144, 0x80 + (n / 4096) % 64, 0x80 + (n / 64) % 64, 0x80 + n % 64] + rest;
    assert bs[0] == 0xF0 + n / 262144 && bs[1] == 0x80 + (n / 4096) % 64;
    assert bs[2] == 0x80 + (n / 64) % 64 && bs[3] == 0x80 + n % 64;
    var q := n / 64;
    var r := q / 64;
    assert q * 64 + n % 64 == n;
    assert r * 64 + q % 64 == q;
    assert (r / 64) * 64 + r % 64 == r;
    assert r == n / 4096 && r / 64 == n / 262144;
  }

  /** Decoding the encoding of a character gives it back, with the encoding's length. */
  lemma DecodeEncodedScalar(c: char, rest: seq<byte>)
    ensures DecodeScalar(EncodeScalar(c) + rest) == Some((c, |EncodeScalar(c)|))
  {
    var n := c as int;
    if n < 0x80 {
    } else if n < 0x800 {
      DecodeTwo(n, rest);
    } else if n < 0x10000 {
      DecodeThree(n, rest);
    } else {
      DecodeFour(n, rest);
    }
  }

  /** UTF-8 decoding undoes encoding, so distinct strings have distinct encodings. */
  lemma {:induction false} Utf8RoundTrip(s: string)
    ensures Utf8Decode(Utf8(s)) == Some(s)
    decreases |s|
  {
    if s != [] {
      var e := EncodeScalar(s[0]);
      DecodeEncodedScalar(s[0], Utf8(s[1..]));
      assert (e + Utf8(s[1..]))[|e|..] == Utf8(s[1..]);
      Utf8RoundTrip(s[1..]);
      assert [s[0]] + s[1..] == s;
    }
  }

  /** ASCII text encodes one byte per character, the byte being the character code. */
  lemma {:induction false} Utf8OfAscii(s: string)
    requires forall i :: 0 <= i < |s| ==> s[i] as int < 0x80
    ensures |Utf8(s)| == |s|
    ensures forall i :: 0 <= i < |s| ==> Utf8(s)[i] == s[i] as int
    decreases |s|
  {
    if s != [] {
      Utf8OfAscii(s[1..]);
    }
  }

  // ---- hexadecimal ----

  const HexDigits: string := "0123456789abcdef"

  predicate IsLowerHex(s: string) {
    forall i :: 0 <= i < |s| ==> s[i] in HexDigits
  }

  function HexChar(d: int): (c: char)
    requires 0 <= d < 16
    ensures c in HexDigits
  {
    HexDigits[d]
  }

  function HexValue(c: char): (d: int)
    requires c in HexDigits
    ensures 0 <= d < 16 && HexChar(d) == c
  {
    if '0' <= c <= '9' then c as int - '0' as int else c as int - 'a' as int + 10
  }

  /** `bs.hex()`: two lowercase hex digits per byte, high nibble first. */
  function Hex(bs: seq<byte>): (s: string)
    ensures |s| == 2 * |bs| && IsLowerHex(s)
    decreases |bs|
  {
    if bs == [] then "" else [HexChar(bs[0] / 16), HexChar(bs[0] % 16)] + Hex(bs[1..])
  }

  function ByteOf(hi: int, lo: int): byte
    requires 0 <= hi < 16 && 0 <= lo < 16
  {
    hi * 16 + lo
  }

  /** `bytes.fromhex` on lowercase digits; None on odd length or a non-hex character. */
  function Unhex(s: string): Option<seq<byte>>
    decreases |s|
  {
    if s == [] then Some([])
    else if |s| == 1 || s[0] !in HexDigits || s[1] !in HexDigits then None
    else match Unhex(s[2..])
      case None => None
      case Some(rest) => Some([ByteOf(HexValue(s[0]), HexValue(s[1]))] + rest)
  }

  lemma HexValueOfChar(d: int)
    requires 0 <= d < 16
    ensures HexValue(HexChar(d)) == d
  {
  }

  /** Reading the hex digits back gives the bytes. */
  lemma {:induction false} HexRoundTrip(bs: seq<byte>)
    ensures Unhex(Hex(bs)) == Some(bs)
    decreases |bs|
  {
    if bs != [] {
      var h := Hex(bs);
      assert h[2..] == Hex(bs[1..]);
      HexRoundTrip(bs[1..]);
      HexValueOfChar(bs[0] / 16);
      HexValueOfChar(bs[0] % 16);
      assert ByteOf(bs[0] / 16, bs[0] % 16) == bs[0];
      assert [bs[0]] + bs[1..] == bs;
    }
  }

  /** The first `2k` hex digits are those of the first `k` bytes. */
  lemma {:induction false} HexPrefix(bs: seq<byte>, k: nat)
    requires k <= |bs|
    ensures Hex(bs)[..2 * k] == Hex(bs[..k])
    decreases k
  {
    if k > 0 {
      var head := [HexChar(bs[0] / 16), HexChar(bs[0] % 16)];
      var tail := Hex(bs[1..]);
      assert Hex(bs) == head + tail;
      HexPrefix(bs[1..], k - 1);
      assert bs[..k][1..] == bs[1..][..k - 1];
      assert Hex(bs[..k]) == head + Hex(bs[1..][..k - 1]);
      assert (head + tail)[..2 * k] == head + tail[..2 * (k - 1)];
    }
  }
}
