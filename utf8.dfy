/**
 * UTF-8, the encoding `urllib.parse.quote_plus` applies to a message before it
 * percent-encodes it (send_whatsapp.py, line 70). A Dafny `char` is a Unicode
 * scalar value, so every message can be encoded. `Decode` is a strict decoder
 * written here as the partner of `Encode`.
 */
module Utf8 {
  import opened Wrappers

  /** One octet. */
  type Byte = b: int | 0 <= b < 256

  /** Unicode scalar values: the code points outside the surrogate range. */
  predicate IsScalar(n: int) {
    0 <= n < 0xD800 || 0xE000 <= n < 0x11_0000
  }

  predicate IsContinuation(b: Byte) {
    0x80 <= b < 0xC0
  }

  /** The one to four bytes that encode `c`. */
  function EncodeChar(c: char): (r: seq<Byte>)
    ensures 1 <= |r| <= 4
    ensures |r| == 1 <==> (c as int) < 0x80
    ensures |r| == 1 ==> r[0] == c as int
    ensures forall k :: 1 <= k < |r| ==> IsContinuation(r[k])
  {
    var n := c as int;
    if n < 0x80 then [n]
    else if n < 0x800 then [0xC0 + n / 64, 0x80 + n % 64]
    else if n < 0x1_0000 then [0xE0 + n / 4096, 0x80 + (n / 64) % 64, 0x80 + n % 64]
    else [0xF0 + n / 262144, 0x80 + (n / 4096) % 64, 0x80 + (n / 64) % 64, 0x80 + n % 64]
  }

  function Encode(s: string): (r: seq<Byte>)
    ensures |s| <= |r| <= 4 * |s|
  {
    if s == [] then [] else EncodeChar(s[0]) + Encode(s[1..])
  }

  /**
   * Reads one character from the front of `b`: the character and the number of
   * bytes it took. Truncated sequences, stray continuation bytes, overlong forms,
   * surrogates and code points above U+10FFFF are rejected.
   */
  function DecodeChar(b: seq<Byte>): (r: Option<(char, nat)>)
    ensures r.Some? ==> 1 <= r.value.1 <= |b|
  {
    if |b| == 0 then None
    else if b[0] < 0x80 then Some((b[0] as char, 1))
    else if 0xC0 <= b[0] < 0xE0 && |b| >= 2 && IsContinuation(b[1]) then
      var n := (b[0] as int - 0xC0) * 64 + (b[1] as int - 0x80);
      if 0x80 <= n then Some((n as char, 2)) else None
    else if 0xE0 <= b[0] < 0xF0 && |b| >= 3 && IsContinuation(b[1]) && IsContinuation(b[2]) then
      var n := (b[0] as int - 0xE0) * 4096 + (b[1] as int - 0x80) * 64 + (b[2] as int - 0x80);
      if 0x800 <= n && IsScalar(n) then Some((n as char, 3)) else None
    else if 0xF0 <= b[0] < 0xF8 && |b| >= 4 && IsContinuation(b[1]) && IsContinuation(b[2])
            && IsContinuation(b[3]) then
      var n := (b[0] as int - 0xF0) * 262144 + (b[1] as int - 0x80) * 4096 + (b[2] as int - 0x80) * 64 + (b[3] as int - 0x80);
      if 0x1_0000 <= n < 0x11_0000 then Some((n as char, 4)) else None
    else None
  }

  function Decode(b: seq<Byte>): Option<string>
    decreases |b|
  {
    if b == [] then Some([])
    else match DecodeChar(b)
      case None => None
      case Some((c, n)) =>
        match Decode(b[n..])
        case None => None
        case Some(rest) => Some([c] + rest)
  }

  lemma DecodeTwo(n: int, rest: seq<Byte>)
    requires 0x80 <= n < 0x800
    ensures DecodeChar([0xC0 + n / 64, 0x80 + n % 64] + rest) == Some((n as char, 2))
  {
    var b := [0xC0 + n / 64, 0x80 + n % 64] + rest;
    assert b[0] == 0xC0 + n / 64 && b[1] == 0x80 + n % 64;
  }

  lemma DecodeThree(n: int, rest: seq<Byte>)
    requires 0x800 <= n < 0x1_0000 && IsScalar(n)
    ensures DecodeChar([0xE0 + n / 4096, 0x80 + (n / 64) % 64, 0x80 + n % 64] + rest)
         == Some((n as char, 3))
  {
    var b := [0xE0 + n / 4096, 0x80 + (n / 64) % 64, 0x80 + n % 64] + rest;
    assert b[0] == 0xE0 + n / 4096 && b[1] == 0x80 + (n / 64) % 64 && b[2] == 0x80 + n % 64;
    var q := n / 64;
    assert n == q * 64 + n % 64;
    assert q == (q / 64) * 64 + q % 64;
    assert q / 64 == n / 4096;
  }

  lemma DecodeFour(n: int, rest: seq<Byte>)
    requires 0x1_0000 <= n < 0x11_0000
    ensures DecodeChar([0xF0 + n / 262144, 0x80 + (n / 4096) % 64, 0x80 + (n / 64) % 64, 0x80 + n % 64] + rest)
         == Some((n as char, 4))
  {
    var b := [0xF0 + n / 262144, 0x80 + (n / 4096) % 64, 0x80 + (n / 64) % 64, 0x80 + n % 64] + rest;
    assert b[0] == 0xF0 + n / 262144 && b[1] == 0x80 + (n / 4096) % 64;
    assert b[2] == 0x80 + (n / 64) % 64 && b[3] == 0x80 + n % 64;
    var q := n / 64;
    var r := q / 64;
    assert n == q * 64 + n % 64;
    assert q == r * 64 + q % 64;
    assert r == (r / 64) * 64 + r % 64;
    assert r == n / 4096 && r / 64 == n / 262144;
  }

  /** Decoding the bytes of one character gives back that character, whatever follows. */
  lemma DecodeEncodeChar(c: char, rest: seq<Byte>)
    ensures DecodeChar(EncodeChar(c) + rest) == Some((c, |EncodeChar(c)|))
  {
    var n := c as int;
    if n < 0x80 {
    } else if n < 0x800 {
      DecodeTwo(n, rest);
    } else if n < 0x1_0000 {
      DecodeThree(n, rest);
    } else {
      DecodeFour(n, rest);
    }
  }

  /** Round trip: `Decode` inverts `Encode` on every string. */
  lemma {:induction false} DecodeEncode(s: string)
    ensures Decode(Encode(s)) == Some(s)
  {
    if s != [] {
      var e := EncodeChar(s[0]);
      var tail := Encode(s[1..]);
      assert Encode(s) == e + tail;
      DecodeEncodeChar(s[0], tail);
      assert (e + tail)[|e|..] == tail;
      DecodeEncode(s[1..]);
      assert [s[0]] + s[1..] == s;
    }
  }
}
