/** The URL- and filename-safe base64 alphabet of section 5 of RFC 4648,
    with `=` padding, as `base64.urlsafe_b64encode` writes it and as
    `base64.urlsafe_b64decode` reads well-formed input. */
module Base64Url {
  import opened Js

  newtype byte = x: int | 0 <= x < 256

  /** The character for a 6-bit value: `A`-`Z`, `a`-`z`, `0`-`9`, `-`, `_`. */
  function Char(i: int): (c: char)
    requires 0 <= i < 64
  {
    if i < 26 then ('A' as int + i) as char
    else if i < 52 then ('a' as int + (i - 26)) as char
    else if i < 62 then ('0' as int + (i - 52)) as char
    else if i == 62 then '-'
    else '_'
  }

  /** The 6-bit value of an alphabet character; None for any other character. */
  function Index(c: char): (r: Option<int>)
    ensures r.Some? ==> 0 <= r.value < 64
  {
    if 'A' <= c <= 'Z' then Some(c as int - 'A' as int)
    else if 'a' <= c <= 'z' then Some(c as int - 'a' as int + 26)
    else if '0' <= c <= '9' then Some(c as int - '0' as int + 52)
    else if c == '-' then Some(62)
    else if c == '_' then Some(63)
    else None
  }

  /** Every 6-bit value is written as a character that reads back as it; `=` is not one of them. */
  lemma IndexChar(i: int)
    requires 0 <= i < 64
    ensures Index(Char(i)) == Some(i)
    ensures Char(i) != '='
  {
  }

  /** Three bytes as four characters. */
  function EncodeBlock(a: byte, b: byte, c: byte): (s: string)
    ensures |s| == 4 && '=' !in s
  {
    IndexChar(a as int / 4);
    IndexChar((a as int % 4) * 16 + b as int / 16);
    IndexChar((b as int % 16) * 4 + c as int / 64);
    IndexChar(c as int % 64);
    [Char(a as int / 4), Char((a as int % 4) * 16 + b as int / 16),
     Char((b as int % 16) * 4 + c as int / 64), Char(c as int % 64)]
  }

  /** `urlsafe_b64encode`: four characters per three bytes, the last group padded with `=`. */
  function Encode(bs: seq<byte>): (s: string)
    ensures |s| % 4 == 0
    ensures |s| == 4 * ((|bs| + 2) / 3)
  {
    if |bs| == 0 then ""
    else if |bs| == 1 then
      [Char(bs[0] as int / 4), Char((bs[0] as int % 4) * 16), '=', '=']
    else if |bs| == 2 then
      [Char(bs[0] as int / 4), Char((bs[0] as int % 4) * 16 + bs[1] as int / 16), Char((bs[1] as int % 16) * 4), '=']
    else EncodeBlock(bs[0], bs[1], bs[2]) + Encode(bs[3..])
  }

  /** Four characters as one to three bytes; padding is accepted only in the
      last group (`last`). */
  function DecodeQuad(q: string, last: bool): (r: Option<seq<byte>>)
    requires |q| == 4
    ensures r.Some? ==> 1 <= |r.value| <= 3
  {
    match (Index(q[0]), Index(q[1]), Index(q[2]), Index(q[3]))
    case (Some(i0), Some(i1), Some(i2), Some(i3)) =>
      Some([(i0 * 4 + i1 / 16) as byte, ((i1 % 16) * 16 + i2 / 4) as byte, ((i2 % 4) * 64 + i3) as byte])
    case (Some(i0), Some(i1), Some(i2), None) =>
      if last && q[3] == '=' then Some([(i0 * 4 + i1 / 16) as byte, ((i1 % 16) * 16 + i2 / 4) as byte]) else None
    case (Some(i0), Some(i1), None, None) =>
      if last && q[2] == '=' && q[3] == '=' then Some([(i0 * 4 + i1 / 16) as byte]) else None
    case _ => None
  }

  /** `urlsafe_b64decode` on well-formed input; None where Python raises. */
  function Decode(s: string): (r: Option<seq<byte>>)
    ensures r.Some? ==> |s| % 4 == 0
  {
    if |s| == 0 then Some([])
    else if |s| < 4 then None
    else
      match DecodeQuad(s[..4], |s| == 4)
      case None => None
      case Some(head) =>
        match Decode(s[4..])
        case None => None
        case Some(tail) => Some(head + tail)
  }

  lemma DecodeFullBlock(a: byte, b: byte, c: byte, last: bool)
    ensures DecodeQuad(EncodeBlock(a, b, c), last) == Some([a, b, c])
  {
    var x, y, z := a as int, b as int, c as int;
    var q := EncodeBlock(a, b, c);
    IndexChar(x / 4);
    IndexChar((x % 4) * 16 + y / 16);
    IndexChar((y % 16) * 4 + z / 64);
    IndexChar(z % 64);
    assert ((x % 4) * 16 + y / 16) / 16 == x % 4 && ((x % 4) * 16 + y / 16) % 16 == y / 16;
    assert ((y % 16) * 4 + z / 64) / 4 == y % 16 && ((y % 16) * 4 + z / 64) % 4 == z / 64;
  }

  lemma DecodeOneByte(a: byte)
    ensures DecodeQuad(Encode([a]), true) == Some([a])
  {
    var x := a as int;
    IndexChar(x / 4);
    IndexChar((x % 4) * 16);
    assert ((x % 4) * 16) / 16 == x % 4;
  }

  lemma DecodeTwoBytes(a: byte, b: byte)
    ensures DecodeQuad(Encode([a, b]), true) == Some([a, b])
  {
    var x, y := a as int, b as int;
    IndexChar(x / 4);
    IndexChar((x % 4) * 16 + y / 16);
    IndexChar((y % 16) * 4);
    assert ((x % 4) * 16 + y / 16) / 16 == x % 4 && ((x % 4) * 16 + y / 16) % 16 == y / 16;
    assert ((y % 16) * 4) / 4 == y % 16;
  }

  /** Decoding reads the first group, then the rest. */
  lemma DecodeSplit(block: string, rest: string, head: seq<byte>, tail: seq<byte>)
    requires |block| == 4
    requires DecodeQuad(block, |rest| == 0) == Some(head) && Decode(rest) == Some(tail)
    ensures Decode(block + rest) == Some(head + tail)
  {
    var s := block + rest;
    assert s[..4] == block && s[4..] == rest;
  }

  /** Decoding what was encoded gives back the bytes. */
  lemma {:induction false} DecodeEncode(bs: seq<byte>)
    ensures Decode(Encode(bs)) == Some(bs)
  {
    if |bs| == 1 {
      DecodeOneByte(bs[0]);
      assert [bs[0]] == bs;
      DecodeSplit(Encode(bs), "", bs, []);
      assert Encode(bs) + "" == Encode(bs) && bs + [] == bs;
    } else if |bs| == 2 {
      DecodeTwoBytes(bs[0], bs[1]);
      assert [bs[0], bs[1]] == bs;
      DecodeSplit(Encode(bs), "", bs, []);
      assert Encode(bs) + "" == Encode(bs) && bs + [] == bs;
    } else if |bs| >= 3 {
      var rest := Encode(bs[3..]);
      DecodeFullBlock(bs[0], bs[1], bs[2], |rest| == 0);
      DecodeEncode(bs[3..]);
      DecodeSplit(EncodeBlock(bs[0], bs[1], bs[2]), rest, [bs[0], bs[1], bs[2]], bs[3..]);
      assert [bs[0], bs[1], bs[2]] + bs[3..] == bs;
    }
  }

  /** An encoding never contains a character outside the alphabet and `=`. */
  lemma {:induction false} EncodeAlphabet(bs: seq<byte>)
    ensures forall c :: c in Encode(bs) ==> c == '=' || Index(c).Some?
  {
    if |bs| == 1 {
      IndexChar(bs[0] as int / 4);
      IndexChar((bs[0] as int % 4) * 16);
    } else if |bs| == 2 {
      IndexChar(bs[0] as int / 4);
      IndexChar((bs[0] as int % 4) * 16 + bs[1] as int / 16);
      IndexChar((bs[1] as int % 16) * 4);
    } else if |bs| >= 3 {
      var block := EncodeBlock(bs[0], bs[1], bs[2]);
      IndexChar(bs[0] as int / 4);
      IndexChar((bs[0] as int % 4) * 16 + bs[1] as int / 16);
      IndexChar((bs[1] as int % 16) * 4 + bs[2] as int / 64);
      IndexChar(bs[2] as int % 64);
      EncodeAlphabet(bs[3..]);
    }
  }
}
