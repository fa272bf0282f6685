/**
 * Base64 as Node's `Buffer.prototype.toString('base64')` writes it: the
 * standard alphabet of RFC 4648 section 4, with `=` padding. The decoder is
 * the partner that shows nothing is lost.
 */
module Base64 {
  import opened Wrappers

  newtype byte = x: int | 0 <= x < 256

  /** The alphabet as a function: A-Z, a-z, 0-9, `+`, `/`. */
  function Digit(i: int): (c: char)
    requires 0 <= i < 64
  {
    if i < 26 then ('A' as int + i) as char
    else if i < 52 then ('a' as int + (i - 26)) as char
    else if i < 62 then ('0' as int + (i - 52)) as char
    else if i == 62 then '+'
    else '/'
  }

  /** The value of an alphabet character; `=` and every other character have none. */
  function DigitValue(c: char): (r: Option<int>)
    ensures r.Some? ==> 0 <= r.value < 64 && Digit(r.value) == c
  {
    if 'A' <= c <= 'Z' then Some(c as int - 'A' as int)
    else if 'a' <= c <= 'z' then Some(c as int - 'a' as int + 26)
    else if '0' <= c <= '9' then Some(c as int - '0' as int + 52)
    else if c == '+' then Some(62)
    else if c == '/' then Some(63)
    else None
  }

  lemma DigitValueOfDigit(i: int)
    requires 0 <= i < 64
    ensures DigitValue(Digit(i)) == Some(i)
  {
  }

  /** Three bytes as four characters: each character carries six bits. */
  function EncodeGroup(a: byte, b: byte, c: byte): string {
    [Digit(a as int / 4), Digit((a as int % 4) * 16 + b as int / 16),
     Digit((b as int % 16) * 4 + c as int / 64), Digit(c as int % 64)]
  }

  function Encode(bs: seq<byte>): (s: string)
    ensures |s| == 4 * ((|bs| + 2) / 3)
    decreases |bs|
  {
    if |bs| == 0 then ""
    else if |bs| == 1 then
      [Digit(bs[0] as int / 4), Digit((bs[0] as int % 4) * 16)] + "=="
    else if |bs| == 2 then
      [Digit(bs[0] as int / 4), Digit((bs[0] as int % 4) * 16 + bs[1] as int / 16),
       Digit((bs[1] as int % 16) * 4)] + "="
    else EncodeGroup(bs[0], bs[1], bs[2]) + Encode(bs[3..])
  }

  /** Four characters back to three bytes (the last `pad` of them not wanted). */
  function DecodeGroup(q: string): (r: Option<seq<byte>>)
    requires |q| == 4
  {
    var v0, v1 := DigitValue(q[0]), DigitValue(q[1]);
    if v0.None? || v1.None? then None
    else if q[2] == '=' && q[3] == '=' then
      if v1.value % 16 != 0 then None
      else Some([(v0.value * 4 + v1.value / 16) as byte])
    else
      var v2 := DigitValue(q[2]);
      if v2.None? then None
      else if q[3] == '=' then
        if v2.value % 4 != 0 then None
        else Some([(v0.value * 4 + v1.value / 16) as byte, ((v1.value % 16) * 16 + v2.value / 4) as byte])
      else
        var v3 := DigitValue(q[3]);
        if v3.None? then None
        else Some([(v0.value * 4 + v1.value / 16) as byte,
                   ((v1.value % 16) * 16 + v2.value / 4) as byte,
                   ((v2.value % 4) * 64 + v3.value) as byte])
  }

  /** Padding is only allowed in the last group. */
  function Decode(s: string): (r: Option<seq<byte>>)
    ensures r.Some? ==> |s| % 4 == 0
    decreases |s|
  {
    if |s| == 0 then Some([])
    else if |s| < 4 then None
    else
      var head := DecodeGroup(s[..4]);
      if head.None? then None
      else if |s| == 4 then head
      else if |head.value| != 3 then None
      else
        var tail := Decode(s[4..]);
        if tail.None? then None else Some(head.value + tail.value)
  }

  lemma GroupRoundTrip(a: byte, b: byte, c: byte)
    ensures DecodeGroup(EncodeGroup(a, b, c)) == Some([a, b, c])
  {
    var x, y, z := a as int, b as int, c as int;
    DigitValueOfDigit(x / 4);
    DigitValueOfDigit((x % 4) * 16 + y / 16);
    DigitValueOfDigit((y % 16) * 4 + z / 64);
    DigitValueOfDigit(z % 64);
    assert ((x % 4) * 16 + y / 16) / 16 == x % 4;
    assert ((x % 4) * 16 + y / 16) % 16 == y / 16;
    assert ((y % 16) * 4 + z / 64) / 4 == y % 16;
    assert ((y % 16) * 4 + z / 64) % 4 == z / 64;
  }

  lemma OneByteRoundTrip(a: byte)
    ensures Decode(Encode([a])) == Some([a])
  {
    var x := a as int;
    DigitValueOfDigit(x / 4);
    DigitValueOfDigit((x % 4) * 16);
    assert ((x % 4) * 16) / 16 == x % 4 && ((x % 4) * 16) % 16 == 0;
    var s := Encode([a]);
    assert s[..4] == s && s[2] == '=' && s[3] == '=';
    assert DecodeGroup(s) == Some([(x / 4 * 4 + x % 4) as byte]);
  }

  lemma TwoBytesRoundTrip(a: byte, b: byte)
    ensures Decode(Encode([a, b])) == Some([a, b])
  {
    var x, y := a as int, b as int;
    DigitValueOfDigit(x / 4);
    DigitValueOfDigit((x % 4) * 16 + y / 16);
    DigitValueOfDigit((y % 16) * 4);
    assert ((x % 4) * 16 + y / 16) / 16 == x % 4;
    assert ((x % 4) * 16 + y / 16) % 16 == y / 16;
    assert ((y % 16) * 4) / 4 == y % 16 && ((y % 16) * 4) % 4 == 0;
    var s := Encode([a, b]);
    assert s[..4] == s && s[2] != '=' && s[3] == '=';
  }

  lemma EncodeStep(bs: seq<byte>)
    requires |bs| >= 3
    ensures Encode(bs) == EncodeGroup(bs[0], bs[1], bs[2]) + Encode(bs[3..])
  {
  }

  lemma DecodeStep(g: string, t: string)
    requires |g| == 4 && |t| > 0
    requires DecodeGroup(g).Some? && |DecodeGroup(g).value| == 3
    ensures Decode(g + t) == if Decode(t).None? then None else Some(DecodeGroup(g).value + Decode(t).value)
  {
    assert (g + t)[..4] == g;
    assert (g + t)[4..] == t;
  }

  lemma DecodeSingle(g: string)
    requires |g| == 4
    ensures Decode(g) == DecodeGroup(g)
  {
    assert g[..4] == g;
  }

  /** One induction step: a full leading group, given the round trip of the rest. */
  lemma RoundTripStep(a: byte, b: byte, c: byte, rest: seq<byte>)
    requires Decode(Encode(rest)) == Some(rest)
    ensures Decode(Encode([a, b, c] + rest)) == Some([a, b, c] + rest)
  {
    var bs := [a, b, c] + rest;
    assert bs[0] == a && bs[1] == b && bs[2] == c && bs[3..] == rest;
    EncodeStep(bs);
    GroupRoundTrip(a, b, c);
    ConsGroup(EncodeGroup(a, b, c), [a, b, c], Encode(rest), rest);
  }

  lemma ConsGroup(g: string, x: seq<byte>, t: string, y: seq<byte>)
    requires |g| == 4 && DecodeGroup(g) == Some(x) && |x| == 3
    requires Decode(t) == Some(y)
    ensures Decode(g + t) == Some(x + y)
  {
    if |t| == 0 {
      assert g + t == g;
      DecodeSingle(g);
      assert y == [];
      assert x + y == x;
    } else {
      DecodeStep(g, t);
    }
  }

  lemma ShortRoundTrip(bs: seq<byte>)
    requires |bs| < 3
    ensures Decode(Encode(bs)) == Some(bs)
  {
    if |bs| == 1 {
      assert bs == [bs[0]];
      OneByteRoundTrip(bs[0]);
    } else if |bs| == 2 {
      assert bs == [bs[0], bs[1]];
      TwoBytesRoundTrip(bs[0], bs[1]);
    }
  }

  lemma SplitGroup(bs: seq<byte>)
    requires |bs| >= 3
    ensures bs == [bs[0], bs[1], bs[2]] + bs[3..]
  {
  }

  /** Decoding undoes encoding, for every byte string. */
  lemma {:induction false} RoundTrip(bs: seq<byte>)
    ensures Decode(Encode(bs)) == Some(bs)
    decreases |bs|
  {
    if |bs| < 3 {
      ShortRoundTrip(bs);
    } else {
      RoundTrip(bs[3..]);
      RoundTripStep(bs[0], bs[1], bs[2], bs[3..]);
      SplitGroup(bs);
    }
  }
}
