/** Base64 with the standard alphabet and `=` padding, section 4 of RFC 4648,
    as `base64.b64encode` produces it, and the strict decoder that inverts it. */
module Base64 {
  import opened Wrappers

  /** The alphabet of Table 1 of RFC 4648: A-Z, a-z, 0-9, '+', '/'. */
  function CharOf(i: int): (c: char)
    requires 0 <= i < 64
    ensures c != '='
  {
    if i < 26 then ('A' as int + i) as char
    else if i < 52 then ('a' as int + (i - 26)) as char
    else if i < 62 then ('0' as int + (i - 52)) as char
    else if i == 62 then '+'
    else '/'
  }

  /** The 6-bit value a character stands for, or None outside the alphabet. */
  function SextetOf(c: char): (r: Option<int>)
    ensures r.Some? ==> 0 <= r.value < 64 && CharOf(r.value) == c
  {
    if 'A' <= c <= 'Z' then Some(c as int - 'A' as int)
    else if 'a' <= c <= 'z' then Some(c as int - 'a' as int + 26)
    else if '0' <= c <= '9' then Some(c as int - '0' as int + 52)
    else if c == '+' then Some(62)
    else if c == '/' then Some(63)
    else None
  }

  lemma SextetOfCharOf(i: int)
    requires 0 <= i < 64
    ensures SextetOf(CharOf(i)) == Some(i)
  {
  }

  /** Three bytes become four characters. */
  function EncodeTriple(b0: byte, b1: byte, b2: byte): string {
    [CharOf(b0 / 4), CharOf((b0 % 4) * 16 + b1 / 16), CharOf((b1 % 16) * 4 + b2 / 64), CharOf(b2 % 64)]
  }

  function Encode(bs: seq<byte>): (s: string)
    ensures |s| == (|bs| + 2) / 3 * 4
    decreases |bs|
  {
    if |bs| >= 3 then EncodeTriple(bs[0], bs[1], bs[2]) + Encode(bs[3..])
    else if |bs| == 2 then [CharOf(bs[0] / 4), CharOf((bs[0] % 4) * 16 + bs[1] / 16), CharOf((bs[1] % 16) * 4), '=']
    else if |bs| == 1 then [CharOf(bs[0] / 4), CharOf((bs[0] % 4) * 16), '=', '=']
    else []
  }

  /** Decodes one group of four characters; padding is accepted only in the
      last group, and only with the unused low bits zero (canonical form). */
  function DecodeQuad(c0: char, c1: char, c2: char, c3: char, last: bool): (r: Option<seq<byte>>)
    ensures r.Some? ==> 1 <= |r.value| <= 3
  {
    var s0, s1, s2, s3 := SextetOf(c0), SextetOf(c1), SextetOf(c2), SextetOf(c3);
    if s0.None? || s1.None? then None
    else if s2.Some? && s3.Some? then
      Some([s0.value * 4 + s1.value / 16, (s1.value % 16) * 16 + s2.value / 4, (s2.value % 4) * 64 + s3.value])
    else if !last || c3 != '=' then None
    else if s2.Some? then
      if s2.value % 4 == 0 then Some([s0.value * 4 + s1.value / 16, (s1.value % 16) * 16 + s2.value / 4]) else None
    else if c2 == '=' && s1.value % 16 == 0 then Some([s0.value * 4 + s1.value / 16])
    else None
  }

  function Decode(s: string): Option<seq<byte>>
    decreases |s|
  {
    if s == [] then Some([])
    else if |s| < 4 then None
    else match DecodeQuad(s[0], s[1], s[2], s[3], |s| == 4)
      case None => None
      case Some(head) =>
        match Decode(s[4..])
        case None => None
        case Some(rest) => Some(head + rest)
  }

  lemma TripleRoundTrip(b0: byte, b1: byte, b2: byte)
    ensures var s0, s1, s2, s3 := b0 / 4, (b0 % 4) * 16 + b1 / 16, (b1 % 16) * 4 + b2 / 64, b2 % 64;
      s0 * 4 + s1 / 16 == b0 && (s1 % 16) * 16 + s2 / 4 == b1 && (s2 % 4) * 64 + s3 == b2
  {
  }

  lemma DecodeQuadTriple(b0: byte, b1: byte, b2: byte, last: bool)
    ensures var t := EncodeTriple(b0, b1, b2); DecodeQuad(t[0], t[1], t[2], t[3], last) == Some([b0, b1, b2])
  {
    TripleRoundTrip(b0, b1, b2);
    SextetOfCharOf(b0 / 4);
    SextetOfCharOf((b0 % 4) * 16 + b1 / 16);
    SextetOfCharOf((b1 % 16) * 4 + b2 / 64);
    SextetOfCharOf(b2 % 64);
  }

  lemma DecodeEncodeTwo(b0: byte, b1: byte)
    ensures Decode(Encode([b0, b1])) == Some([b0, b1])
  {
    var s := Encode([b0, b1]);
    TripleRoundTrip(b0, b1, 0);
    SextetOfCharOf(b0 / 4);
    SextetOfCharOf((b0 % 4) * 16 + b1 / 16);
    SextetOfCharOf((b1 % 16) * 4);
    assert DecodeQuad(s[0], s[1], s[2], s[3], true) == Some([b0, b1]);
    assert Decode(s[4..]) == Some([]);
    assert [b0, b1] + [] == [b0, b1];
  }

  lemma DecodeEncodeOne(b0: byte)
    ensures Decode(Encode([b0])) == Some([b0])
  {
    var s := Encode([b0]);
    SextetOfCharOf(b0 / 4);
    SextetOfCharOf((b0 % 4) * 16);
    assert DecodeQuad(s[0], s[1], s[2], s[3], true) == Some([b0]);
    assert Decode(s[4..]) == Some([]);
    assert [b0] + [] == [b0];
  }

  /** Decoding what `Encode` produced gives the bytes back. */
  lemma {:induction false} DecodeEncode(bs: seq<byte>)
    ensures Decode(Encode(bs)) == Some(bs)
    decreases |bs|
  {
    if |bs| >= 3 {
      var t, rest := EncodeTriple(bs[0], bs[1], bs[2]), Encode(bs[3..]);
      var s := t + rest;
      assert Encode(bs) == s;
      DecodeQuadTriple(bs[0], bs[1], bs[2], |s| == 4);
      assert s[..4] == t && s[4..] == rest;
      DecodeEncode(bs[3..]);
      assert [bs[0], bs[1], bs[2]] + bs[3..] == bs;
    } else if |bs| == 2 {
      DecodeEncodeTwo(bs[0], bs[1]);
      assert [bs[0], bs[1]] == bs;
    } else if |bs| == 1 {
      DecodeEncodeOne(bs[0]);
      assert [bs[0]] == bs;
    }
  }

  lemma QuadRoundTrip(s0: int, s1: int, s2: int, s3: int)
    requires 0 <= s0 < 64 && 0 <= s1 < 64 && 0 <= s2 < 64 && 0 <= s3 < 64
    ensures var b0, b1, b2 := s0 * 4 + s1 / 16, (s1 % 16) * 16 + s2 / 4, (s2 % 4) * 64 + s3;
      b0 / 4 == s0 && (b0 % 4) * 16 + b1 / 16 == s1 && (b1 % 16) * 4 + b2 / 64 == s2 && b2 % 64 == s3
  {
  }

  lemma ReencodeFull(c0: char, c1: char, c2: char, c3: char)
    requires SextetOf(c0).Some? && SextetOf(c1).Some? && SextetOf(c2).Some? && SextetOf(c3).Some?
    ensures var x0, x1, x2, x3 := SextetOf(c0).value, SextetOf(c1).value, SextetOf(c2).value, SextetOf(c3).value;
      EncodeTriple(x0 * 4 + x1 / 16, (x1 % 16) * 16 + x2 / 4, (x2 % 4) * 64 + x3) == [c0, c1, c2, c3]
  {
    QuadRoundTrip(SextetOf(c0).value, SextetOf(c1).value, SextetOf(c2).value, SextetOf(c3).value);
  }

  lemma ReencodeTwo(c0: char, c1: char, c2: char)
    requires SextetOf(c0).Some? && SextetOf(c1).Some? && SextetOf(c2).Some? && SextetOf(c2).value % 4 == 0
    ensures var x0, x1, x2 := SextetOf(c0).value, SextetOf(c1).value, SextetOf(c2).value;
      Encode([x0 * 4 + x1 / 16, (x1 % 16) * 16 + x2 / 4]) == [c0, c1, c2, '=']
  {
    QuadRoundTrip(SextetOf(c0).value, SextetOf(c1).value, SextetOf(c2).value, 0);
  }

  lemma ReencodeOne(c0: char, c1: char)
    requires SextetOf(c0).Some? && SextetOf(c1).Some? && SextetOf(c1).value % 16 == 0
    ensures var x0, x1 := SextetOf(c0).value, SextetOf(c1).value;
      Encode([x0 * 4 + x1 / 16]) == [c0, c1, '=', '=']
  {
    QuadRoundTrip(SextetOf(c0).value, SextetOf(c1).value, 0, 0);
  }

  /** The three shapes of a group `DecodeQuad` accepts. */
  lemma DecodeQuadCases(c0: char, c1: char, c2: char, c3: char, last: bool, head: seq<byte>)
    requires DecodeQuad(c0, c1, c2, c3, last) == Some(head)
    ensures SextetOf(c0).Some? && SextetOf(c1).Some?
    ensures var x0, x1 := SextetOf(c0).value, SextetOf(c1).value;
      if SextetOf(c2).Some? && SextetOf(c3).Some? then
        var x2, x3 := SextetOf(c2).value, SextetOf(c3).value;
        head == [x0 * 4 + x1 / 16, (x1 % 16) * 16 + x2 / 4, (x2 % 4) * 64 + x3]
      else if SextetOf(c2).Some? then
        var x2 := SextetOf(c2).value;
        last && c3 == '=' && x2 % 4 == 0 && head == [x0 * 4 + x1 / 16, (x1 % 16) * 16 + x2 / 4]
      else
        last && c3 == '=' && c2 == '=' && x1 % 16 == 0 && head == [x0 * 4 + x1 / 16]
  {
  }

  /** One decoded group re-encodes to the same four characters. */
  lemma EncodeDecodeQuad(c0: char, c1: char, c2: char, c3: char, last: bool, head: seq<byte>)
    requires DecodeQuad(c0, c1, c2, c3, last) == Some(head)
    ensures |head| < 3 ==> last && Encode(head) == [c0, c1, c2, c3]
    ensures |head| == 3 ==> EncodeTriple(head[0], head[1], head[2]) == [c0, c1, c2, c3]
  {
    DecodeQuadCases(c0, c1, c2, c3, last, head);
    if SextetOf(c2).Some? && SextetOf(c3).Some? {
      ReencodeFull(c0, c1, c2, c3);
    } else if SextetOf(c2).Some? {
      ReencodeTwo(c0, c1, c2);
    } else {
      ReencodeOne(c0, c1);
    }
  }

  lemma EncodeAfterTriple(head: seq<byte>, rest: seq<byte>)
    requires |head| == 3
    ensures Encode(head + rest) == EncodeTriple(head[0], head[1], head[2]) + Encode(rest)
  {
    assert (head + rest)[3..] == rest;
  }

  lemma FourChars(s: string)
    requires |s| == 4
    ensures s == [s[0], s[1], s[2], s[3]]
  {
  }

  /** The decoder accepts only canonical text: whatever it decodes, `Encode`
      turns back into exactly the same characters. */
  lemma {:induction false} EncodeDecode(s: string, bs: seq<byte>)
    requires Decode(s) == Some(bs)
    ensures Encode(bs) == s
    decreases |s|
  {
    if s != [] {
      var q := DecodeQuad(s[0], s[1], s[2], s[3], |s| == 4);
      var r := Decode(s[4..]);
      assert q.Some? && r.Some? && bs == q.value + r.value;
      var head, rest := q.value, r.value;
      EncodeDecodeQuad(s[0], s[1], s[2], s[3], |s| == 4, head);
      EncodeDecode(s[4..], rest);
      FourChars(s[..4]);
      assert s == s[..4] + s[4..];
      if |head| == 3 {
        EncodeAfterTriple(head, rest);
      } else {
        assert s[4..] == [];
        assert bs == head + [];
      }
    }
  }
}
