/**
  Base64 as defined in section 4 of RFC 4648: the 64-character alphabet
  `A-Z a-z 0-9 + /`, `=` padding, no line breaks. This is what
  `Data.base64EncodedString()` produces with no options. `Decode` is the
  independent reading of such text; `DecodeEncode` is the round trip.
 */
module Base64 {

  import opened Results

  type byte = x: int | 0 <= x < 256

  /** The character for a 6-bit value, per Table 1 of RFC 4648. */
  function CharOf(i: int): (c: char)
    requires 0 <= i < 64
    ensures IsBase64Char(c)
  {
    if i < 26 then (('A' as int) + i) as char
    else if i < 52 then (('a' as int) + i - 26) as char
    else if i < 62 then (('0' as int) + i - 52) as char
    else if i == 62 then '+'
    else '/'
  }

  predicate IsBase64Char(c: char)
  {
    ('A' <= c <= 'Z') || ('a' <= c <= 'z') || ('0' <= c <= '9') || c == '+' || c == '/'
  }

  /** The 6-bit value of an alphabet character. */
  function ValueOf(c: char): (v: int)
    requires IsBase64Char(c)
    ensures 0 <= v < 64
  {
    if 'A' <= c <= 'Z' then (c as int) - ('A' as int)
    else if 'a' <= c <= 'z' then (c as int) - ('a' as int) + 26
    else if '0' <= c <= '9' then (c as int) - ('0' as int) + 52
    else if c == '+' then 62
    else 63
  }

  lemma ValueOfCharOf(i: int)
    requires 0 <= i < 64
    ensures ValueOf(CharOf(i)) == i
  {
  }

  /** Three bytes become four characters. */
  function EncodeBlock(a: byte, b: byte, c: byte): string
  {
    [CharOf(a / 4), CharOf((a % 4) * 16 + b / 16), CharOf((b % 16) * 4 + c / 64), CharOf(c % 64)]
  }

  /** The final quantum of one byte: two characters and two `=`. */
  function EncodeOne(a: byte): string
  {
    [CharOf(a / 4), CharOf((a % 4) * 16), '=', '=']
  }

  /** The final quantum of two bytes: three characters and one `=`. */
  function EncodeTwo(a: byte, b: byte): string
  {
    [CharOf(a / 4), CharOf((a % 4) * 16 + b / 16), CharOf((b % 16) * 4), '=']
  }

  function Encode(data: seq<byte>): (s: string)
    decreases |data|
  {
    if |data| == 0 then ""
    else if |data| == 1 then EncodeOne(data[0])
    else if |data| == 2 then EncodeTwo(data[0], data[1])
    else EncodeBlock(data[0], data[1], data[2]) + Encode(data[3..])
  }

  /** Four alphabet characters become three bytes. */
  function DecodeBlock(q: string): Option<seq<byte>>
    requires |q| == 4
  {
    if IsBase64Char(q[0]) && IsBase64Char(q[1]) && IsBase64Char(q[2]) && IsBase64Char(q[3]) then
      var c0, c1, c2, c3 := ValueOf(q[0]), ValueOf(q[1]), ValueOf(q[2]), ValueOf(q[3]);
      Some([c0 * 4 + c1 / 16, (c1 % 16) * 16 + c2 / 4, (c2 % 4) * 64 + c3])
    else None
  }

  /** The last quantum, which may carry one or two `=`. */
  function DecodeFinal(q: string): Option<seq<byte>>
    requires |q| == 4
  {
    if q[2] == '=' && q[3] == '=' then
      if IsBase64Char(q[0]) && IsBase64Char(q[1]) then
        Some([ValueOf(q[0]) * 4 + ValueOf(q[1]) / 16])
      else None
    else if q[3] == '=' then
      if IsBase64Char(q[0]) && IsBase64Char(q[1]) && IsBase64Char(q[2]) then
        var c1, c2 := ValueOf(q[1]), ValueOf(q[2]);
        Some([ValueOf(q[0]) * 4 + c1 / 16, (c1 % 16) * 16 + c2 / 4])
      else None
    else DecodeBlock(q)
  }

  function Decode(s: string): Option<seq<byte>>
    decreases |s|
  {
    if |s| == 0 then Some([])
    else if |s| < 4 then None
    else if |s| == 4 then DecodeFinal(s)
    else
      match DecodeBlock(s[..4])
      case None => None
      case Some(head) =>
        match Decode(s[4..])
        case None => None
        case Some(tail) => Some(head + tail)
  }

  lemma BlockRoundTrip(a: byte, b: byte, c: byte)
    ensures DecodeBlock(EncodeBlock(a, b, c)) == Some([a, b, c])
  {
    var c0, c1, c2, c3 := a / 4, (a % 4) * 16 + b / 16, (b % 16) * 4 + c / 64, c % 64;
    ValueOfCharOf(c0);
    ValueOfCharOf(c1);
    ValueOfCharOf(c2);
    ValueOfCharOf(c3);
    assert c1 / 16 == a % 4 && c1 % 16 == b / 16;
    assert c2 / 4 == b % 16 && c2 % 4 == c / 64;
  }

  lemma OneRoundTrip(a: byte)
    ensures DecodeFinal(EncodeOne(a)) == Some([a])
  {
    ValueOfCharOf(a / 4);
    ValueOfCharOf((a % 4) * 16);
  }

  lemma TwoRoundTrip(a: byte, b: byte)
    ensures DecodeFinal(EncodeTwo(a, b)) == Some([a, b])
  {
    var c1, c2 := (a % 4) * 16 + b / 16, (b % 16) * 4;
    ValueOfCharOf(a / 4);
    ValueOfCharOf(c1);
    ValueOfCharOf(c2);
    assert c1 / 16 == a % 4 && c1 % 16 == b / 16;
    assert c2 / 4 == b % 16;
  }

  lemma ThreeRoundTrip(a: byte, b: byte, c: byte)
    ensures DecodeFinal(EncodeBlock(a, b, c)) == Some([a, b, c])
  {
    BlockRoundTrip(a, b, c);
    var q := EncodeBlock(a, b, c);
    assert q[3] != '=' && q[2] != '=';
  }

  lemma DecodeBlockThen(block: string, rest: string, head: seq<byte>, tail: seq<byte>)
    requires |block| == 4 && |rest| > 0
    requires DecodeBlock(block) == Some(head) && Decode(rest) == Some(tail)
    ensures Decode(block + rest) == Some(head + tail)
  {
    var s := block + rest;
    assert s[..4] == block;
    assert s[4..] == rest;
  }

  lemma DecodeQuantum(q: string)
    requires |q| == 4
    ensures Decode(q) == DecodeFinal(q)
  {
  }

  lemma EncodeThree(data: seq<byte>)
    requires |data| == 3
    ensures Encode(data) == EncodeBlock(data[0], data[1], data[2])
  {
    assert Encode(data[3..]) == "";
  }

  lemma EncodeLonger(data: seq<byte>)
    requires |data| > 3
    ensures Encode(data) == EncodeBlock(data[0], data[1], data[2]) + Encode(data[3..])
  {
  }

  lemma ShortRoundTrip(data: seq<byte>)
    requires 1 <= |data| <= 3
    ensures Decode(Encode(data)) == Some(data)
  {
    if |data| == 1 {
      OneByteRoundTrip(data);
    } else if |data| == 2 {
      TwoBytesRoundTrip(data);
    } else {
      ThreeBytesRoundTrip(data);
    }
  }

  lemma OneByteRoundTrip(data: seq<byte>)
    requires |data| == 1
    ensures Decode(Encode(data)) == Some(data)
  {
    var q := Encode(data);
    assert q == EncodeOne(data[0]);
    OneRoundTrip(data[0]);
    DecodeQuantum(q);
    assert data == [data[0]];
  }

  lemma TwoBytesRoundTrip(data: seq<byte>)
    requires |data| == 2
    ensures Decode(Encode(data)) == Some(data)
  {
    var q := Encode(data);
    assert q == EncodeTwo(data[0], data[1]);
    TwoRoundTrip(data[0], data[1]);
    DecodeQuantum(q);
    assert data == [data[0], data[1]];
  }

  lemma ThreeBytesRoundTrip(data: seq<byte>)
    requires |data| == 3
    ensures Decode(Encode(data)) == Some(data)
  {
    var q := Encode(data);
    EncodeThree(data);
    ThreeRoundTrip(data[0], data[1], data[2]);
    DecodeQuantum(q);
    assert data == [data[0], data[1], data[2]];
  }

  /** Decoding what `Encode` wrote gives back the original bytes. */
  lemma {:induction false} DecodeEncode(data: seq<byte>)
    ensures Decode(Encode(data)) == Some(data)
    decreases |data|
  {
    if |data| == 0 {
    } else if |data| <= 3 {
      ShortRoundTrip(data);
    } else {
      var block := EncodeBlock(data[0], data[1], data[2]);
      var rest := Encode(data[3..]);
      EncodeLonger(data);
      BlockRoundTrip(data[0], data[1], data[2]);
      DecodeEncode(data[3..]);
      DecodeBlockThen(block, rest, [data[0], data[1], data[2]], data[3..]);
      assert data == [data[0], data[1], data[2]] + data[3..];
    }
  }

  /** Every character of an encoding is from the alphabet or is padding. */
  lemma {:induction false} EncodeAlphabet(data: seq<byte>)
    ensures forall i :: 0 <= i < |Encode(data)| ==> IsBase64Char(Encode(data)[i]) || Encode(data)[i] == '='
    decreases |data|
  {
    if |data| > 3 {
      EncodeLonger(data);
      EncodeAlphabet(data[3..]);
    }
  }

  /** Four characters for every started group of three bytes. */
  lemma {:induction false} EncodeLength(data: seq<byte>)
    ensures |Encode(data)| == 4 * ((|data| + 2) / 3)
    decreases |data|
  {
    if |data| > 3 {
      EncodeLonger(data);
      EncodeLength(data[3..]);
    }
  }

  /** The value from the encoder's test of `Data`: bytes 0x42 0x00 0xff. */
  lemma EncodeSample()
    ensures Encode([0x42, 0x00, 0xff]) == "QgD/"
  {
    EncodeThree([0x42, 0x00, 0xff]);
  }
}
