/** UTF-8 as `str.encode("utf-8")` produces it, with a strict decoder. */
module Utf8 {
  import opened Wrappers

  predicate IsScalar(n: int) {
    0 <= n < 0xD800 || 0xE000 <= n < 0x110000
  }

  predicate IsContinuation(b: byte) {
    0x80 <= b < 0xC0
  }

  /** The one to four bytes that encode one character. */
  function EncodeChar(c: char): (bs: seq<byte>)
    ensures 1 <= |bs| <= 4
    ensures bs[0] < 0x80 <==> |bs| == 1
    ensures forall i :: 1 <= i < |bs| ==> IsContinuation(bs[i])
  {
    var n := c as int;
    if n < 0x80 then [n]
    else if n < 0x800 then [0xC0 + n / 64, 0x80 + n % 64]
    else if n < 0x10000 then [0xE0 + n / 4096, 0x80 + (n / 64) % 64, 0x80 + n % 64]
    else [0xF0 + n / 262144, 0x80 + (n / 4096) % 64, 0x80 + (n / 64) % 64, 0x80 + n % 64]
  }

  function Encode(s: string): (bs: seq<byte>)
    ensures |s| <= |bs| <= 4 * |s|
  {
    if s == [] then [] else EncodeChar(s[0]) + Encode(s[1..])
  }

  /** The character at the head of `bs` and how many bytes it takes, or None when
      the head is not a well-formed, shortest-form encoding of a scalar value. */
  function DecodeHead(bs: seq<byte>): (r: Option<(char, nat)>)
    requires |bs| > 0
    ensures r.Some? ==> 1 <= r.value.1 <= |bs|
  {
    var b0 := bs[0] as int;
    if b0 < 0x80 then Some((b0 as char, 1))
    else if 0xC0 <= b0 < 0xE0 then
      if |bs| < 2 || !IsContinuation(bs[1]) then None
      else
        var n := (b0 - 0xC0) * 64 + (bs[1] as int - 0x80);
        if n < 0x80 then None else Some((n as char, 2))
    else if 0xE0 <= b0 < 0xF0 then
      if |bs| < 3 || !IsContinuation(bs[1]) || !IsContinuation(bs[2]) then None
      else
        var n := (b0 - 0xE0) * 4096 + (bs[1] as int - 0x80) * 64 + (bs[2] as int - 0x80);
        if n < 0x800 || !IsScalar(n) then None else Some((n as char, 3))
    else if 0xF0 <= b0 < 0xF8 then
      if |bs| < 4 || !IsContinuation(bs[1]) || !IsContinuation(bs[2]) || !IsContinuation(bs[3]) then None
      else
        var n := (b0 - 0xF0) * 262144 + (bs[1] as int - 0x80) * 4096 + (bs[2] as int - 0x80) * 64 + (bs[3] as int - 0x80);
        if n < 0x10000 || 0x110000 <= n then None else Some((n as char, 4))
    else None
  }

  function Decode(bs: seq<byte>): Option<string>
    decreases |bs|
  {
    if bs == [] then Some([])
    else match DecodeHead(bs)
      case None => None
      case Some((c, w)) =>
        match Decode(bs[w..])
        case None => None
        case Some(rest) => Some([c] + rest)
  }

  lemma Split64(n: int)
    requires 0 <= n
    ensures n == (n / 64) * 64 + n % 64
    ensures n / 4096 == (n / 64) / 64
    ensures n / 262144 == (n / 4096) / 64
  {
  }

  lemma DecodeHeadEncodeChar(c: char, rest: seq<byte>)
    ensures DecodeHead(EncodeChar(c) + rest) == Some((c, |EncodeChar(c)|))
  {
    var n := c as int;
    var bs := EncodeChar(c) + rest;
    Split64(n);
    Split64(n / 64);
    Split64(n / 4096);
    if n < 0x80 {
    } else if n < 0x800 {
      assert (bs[0] as int - 0xC0) * 64 + (bs[1] as int - 0x80) == n;
    } else if n < 0x10000 {
      assert (bs[0] as int - 0xE0) * 4096 + (bs[1] as int - 0x80) * 64 + (bs[2] as int - 0x80) == n;
    } else {
      assert (bs[0] as int - 0xF0) * 262144 + (bs[1] as int - 0x80) * 4096 + (bs[2] as int - 0x80) * 64 + (bs[3] as int - 0x80) == n;
    }
  }

  /** Decoding what `Encode` produced gives the string back. */
  lemma {:induction false} DecodeEncode(s: string)
    ensures Decode(Encode(s)) == Some(s)
  {
    if s != [] {
      var head := EncodeChar(s[0]);
      var tail := Encode(s[1..]);
      DecodeHeadEncodeChar(s[0], tail);
      assert (head + tail)[|head|..] == tail;
      DecodeEncode(s[1..]);
      assert [s[0]] + s[1..] == s;
    }
  }
}
