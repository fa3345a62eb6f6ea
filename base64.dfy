/**
 * The base64 encoding of section 4 of RFC 4648 with `=` padding, the
 * `btoa` that applies it to a Latin-1 string, and a strict decoder that
 * undoes it.
 */
module Base64 {
  import opened Wrappers

  type Byte = b: int | 0 <= b < 256
  type Sextet = d: int | 0 <= d < 64

  /** The character of the base64 alphabet (Table 1 of RFC 4648) for d. */
  function DigitChar(d: Sextet): char
  {
    if d < 26 then ('A' as int + d) as char
    else if d < 52 then ('a' as int + (d - 26)) as char
    else if d < 62 then ('0' as int + (d - 52)) as char
    else if d == 62 then '+'
    else '/'
  }

  /** The value of a base64 alphabet character; None for any other
      character, the pad `=` included. */
  function DigitValue(c: char): (r: Option<Sextet>)
    ensures r.Some? ==> DigitChar(r.value) == c
  {
    if 'A' <= c <= 'Z' then Some(c as int - 'A' as int)
    else if 'a' <= c <= 'z' then Some(c as int - 'a' as int + 26)
    else if '0' <= c <= '9' then Some(c as int - '0' as int + 52)
    else if c == '+' then Some(62)
    else if c == '/' then Some(63)
    else None
  }

  /** Every alphabet character is read back as the digit it encodes. */
  lemma DigitRoundTrip(d: Sextet)
    ensures DigitValue(DigitChar(d)) == Some(d)
  {
  }

  /** Three bytes as four digits. */
  function EncodeGroup(b0: Byte, b1: Byte, b2: Byte): string
  {
    [DigitChar(b0 / 4), DigitChar(b0 % 4 * 16 + b1 / 16),
     DigitChar(b1 % 16 * 4 + b2 / 64), DigitChar(b2 % 64)]
  }

  /** Section 4 of RFC 4648: each group of three bytes becomes four digits;
      a final group of one or two bytes is padded with `=`. */
  function Encode(b: seq<Byte>): (r: string)
    ensures |r| == (|b| + 2) / 3 * 4
  {
    if |b| == 0 then []
    else if |b| == 1 then [DigitChar(b[0] / 4), DigitChar(b[0] % 4 * 16), '=', '=']
    else if |b| == 2 then
      [DigitChar(b[0] / 4), DigitChar(b[0] % 4 * 16 + b[1] / 16), DigitChar(b[1] % 16 * 4), '=']
    else EncodeGroup(b[0], b[1], b[2]) + Encode(b[3..])
  }

  /** Reads one group of four characters; padding is accepted only in the
      final group, and only with the unused bits zero (the canonical
      encoding of section 3.5 of RFC 4648). */
  function DecodeGroup(q: string, final: bool): Option<seq<Byte>>
    requires |q| == 4
  {
    var v0, v1, v2, v3 := DigitValue(q[0]), DigitValue(q[1]), DigitValue(q[2]), DigitValue(q[3]);
    if v0.None? || v1.None? then None
    else
      var b0: Byte := v0.value * 4 + v1.value / 16;
      if v2.Some? && v3.Some? then
        var b1: Byte := v1.value % 16 * 16 + v2.value / 4;
        var b2: Byte := v2.value % 4 * 64 + v3.value;
        Some([b0, b1, b2])
      else if final && v2.Some? && q[3] == '=' && v2.value % 4 == 0 then
        var b1: Byte := v1.value % 16 * 16 + v2.value / 4;
        Some([b0, b1])
      else if final && q[2] == '=' && q[3] == '=' && v1.value % 16 == 0 then Some([b0])
      else None
  }

  /** Strict base64 decoding: None unless s is a canonical encoding. */
  function Decode(s: string): Option<seq<Byte>>
    decreases |s|
  {
    if |s| == 0 then Some([])
    else if |s| < 4 then None
    else
      match DecodeGroup(s[..4], |s| == 4)
      case None => None
      case Some(head) =>
        match Decode(s[4..])
        case None => None
        case Some(tail) => Some(head + tail)
  }

  lemma GroupRoundTrip(b0: Byte, b1: Byte, b2: Byte, final: bool)
    ensures DecodeGroup(EncodeGroup(b0, b1, b2), final) == Some([b0, b1, b2])
  {
    DigitRoundTrip(b0 / 4);
    DigitRoundTrip(b0 % 4 * 16 + b1 / 16);
    DigitRoundTrip(b1 % 16 * 4 + b2 / 64);
    DigitRoundTrip(b2 % 64);
  }

  lemma EncodeOne(b: seq<Byte>)
    requires |b| == 1
    ensures Encode(b) == [DigitChar(b[0] / 4), DigitChar(b[0] % 4 * 16), '=', '=']
  {
  }

  lemma SingleGroup(x: Byte)
    ensures DecodeGroup([DigitChar(x / 4), DigitChar(x % 4 * 16), '=', '='], true) == Some([x])
  {
    var d0, d1 := x / 4, x % 4 * 16;
    DigitRoundTrip(d0);
    DigitRoundTrip(d1);
    assert d0 * 4 + d1 / 16 == x && d1 % 16 == 0;
    assert DigitValue('=') == None;
  }

  lemma OneByteRoundTrip(b: seq<Byte>)
    requires |b| == 1
    ensures Decode(Encode(b)) == Some(b)
  {
    var x := b[0];
    var r := [DigitChar(x / 4), DigitChar(x % 4 * 16), '=', '='];
    EncodeOne(b);
    SingleGroup(x);
    assert r[..4] == r && r[4..] == [];
    DecodeUnfold(r, [x], []);
    assert [x] + [] == b;
  }

  lemma EncodeTwo(b: seq<Byte>)
    requires |b| == 2
    ensures Encode(b) == [DigitChar(b[0] / 4), DigitChar(b[0] % 4 * 16 + b[1] / 16), DigitChar(b[1] % 16 * 4), '=']
  {
  }

  lemma PairGroup(x: Byte, y: Byte)
    ensures DecodeGroup([DigitChar(x / 4), DigitChar(x % 4 * 16 + y / 16), DigitChar(y % 16 * 4), '='], true)
            == Some([x, y])
  {
    var d0, d1, d2 := x / 4, x % 4 * 16 + y / 16, y % 16 * 4;
    DigitRoundTrip(d0);
    DigitRoundTrip(d1);
    DigitRoundTrip(d2);
    assert d0 * 4 + d1 / 16 == x;
    assert d1 % 16 * 16 + d2 / 4 == y && d2 % 4 == 0;
    assert DigitValue('=') == None;
  }

  lemma TwoByteRoundTrip(b: seq<Byte>)
    requires |b| == 2
    ensures Decode(Encode(b)) == Some(b)
  {
    var x, y := b[0], b[1];
    var r := [DigitChar(x / 4), DigitChar(x % 4 * 16 + y / 16), DigitChar(y % 16 * 4), '='];
    EncodeTwo(b);
    PairGroup(x, y);
    assert r[..4] == r && r[4..] == [];
    DecodeUnfold(r, [x, y], []);
    assert [x, y] + [] == b;
  }

  /** One full group in front of an encoding that already round-trips. */
  lemma GroupStep(b: seq<Byte>)
    requires |b| >= 3
    requires Decode(Encode(b[3..])) == Some(b[3..])
    ensures Decode(Encode(b)) == Some(b)
  {
    EncodeUnfold(b);
    GroupThenRest(b);
    SplitFirstThree(b);
  }

  lemma SplitFirstThree(b: seq<Byte>)
    requires |b| >= 3
    ensures b == [b[0], b[1], b[2]] + b[3..]
  {
  }

  lemma GroupThenRest(b: seq<Byte>)
    requires |b| >= 3
    requires Decode(Encode(b[3..])) == Some(b[3..])
    ensures Decode(EncodeGroup(b[0], b[1], b[2]) + Encode(b[3..])) == Some([b[0], b[1], b[2]] + b[3..])
  {
    var tail := Encode(b[3..]);
    GroupRoundTrip(b[0], b[1], b[2], |tail| == 0);
    ConcatDecode(EncodeGroup(b[0], b[1], b[2]), tail, [b[0], b[1], b[2]], b[3..]);
  }

  lemma ConcatDecode(head: string, tail: string, h: seq<Byte>, t: seq<Byte>)
    requires |head| == 4
    requires DecodeGroup(head, |tail| == 0) == Some(h)
    requires Decode(tail) == Some(t)
    ensures Decode(head + tail) == Some(h + t)
  {
    var r := head + tail;
    assert r[..4] == head && r[4..] == tail;
    DecodeUnfold(r, h, t);
  }

  lemma EncodeUnfold(b: seq<Byte>)
    requires |b| >= 3
    ensures Encode(b) == EncodeGroup(b[0], b[1], b[2]) + Encode(b[3..])
  {
  }

  lemma DecodeUnfold(r: string, head: seq<Byte>, tail: seq<Byte>)
    requires |r| >= 4
    requires DecodeGroup(r[..4], |r| == 4) == Some(head)
    requires Decode(r[4..]) == Some(tail)
    ensures Decode(r) == Some(head + tail)
  {
  }

  /** Decoding undoes encoding, for every byte string. */
  lemma {:induction false} RoundTrip(b: seq<Byte>)
    ensures Decode(Encode(b)) == Some(b)
    decreases |b|
  {
    if |b| == 1 {
      OneByteRoundTrip(b);
    } else if |b| == 2 {
      TwoByteRoundTrip(b);
    } else if |b| >= 3 {
      RoundTrip(b[3..]);
      GroupStep(b);
    }
  }

  /** A string every character of which is in the Latin-1 range. */
  predicate IsLatin1(s: string)
  {
    forall k :: 0 <= k < |s| ==> s[k] as int < 256
  }

  function Latin1Bytes(s: string): (b: seq<Byte>)
    requires IsLatin1(s)
    ensures |b| == |s| && forall k :: 0 <= k < |s| ==> b[k] == s[k] as int
  {
    seq(|s|, k requires 0 <= k < |s| => s[k] as int as Byte)
  }

  function Latin1String(b: seq<Byte>): (s: string)
    ensures |s| == |b| && forall k :: 0 <= k < |b| ==> s[k] as int == b[k]
  {
    seq(|b|, k requires 0 <= k < |b| => b[k] as char)
  }

  /** `btoa`: the base64 encoding of the string's Latin-1 bytes; None stands
      for the InvalidCharacterError it throws on any other character. */
  function Btoa(s: string): (r: Option<string>)
    ensures r.Some? <==> IsLatin1(s)
    ensures r.Some? ==> |r.value| == (|s| + 2) / 3 * 4
  {
    if IsLatin1(s) then Some(Encode(Latin1Bytes(s))) else None
  }

  /** `atob` in strict form: the decoded bytes as a Latin-1 string. */
  function Atob(s: string): Option<string>
  {
    match Decode(s)
    case None => None
    case Some(b) => Some(Latin1String(b))
  }

  /** Every string `btoa` accepts is recovered by `atob`. */
  lemma BtoaRoundTrip(s: string)
    requires IsLatin1(s)
    ensures Btoa(s).Some? && Atob(Btoa(s).value) == Some(s)
  {
    RoundTrip(Latin1Bytes(s));
    assert Latin1String(Latin1Bytes(s)) == s;
  }

  /** The test vectors of section 10 of RFC 4648 shorter than one group. */
  lemma ShortTestVectors()
    ensures Btoa("") == Some("")
    ensures Btoa("f") == Some("Zg==")
    ensures Btoa("fo") == Some("Zm8=")
  {
    assert Latin1Bytes("fo") == [102, 111];
    assert Latin1Bytes("f") == [102];
  }

  /** The test vectors of section 10 of RFC 4648 of one group or more. */
  lemma TestVectors()
    ensures Btoa("foo") == Some("Zm9v")
    ensures Btoa("foob") == Some("Zm9vYg==")
    ensures Btoa("fooba") == Some("Zm9vYmE=")
    ensures Btoa("foobar") == Some("Zm9vYmFy")
  {
    var foo := EncodeGroup(102, 111, 111);
    assert foo == "Zm9v" by {
      assert DigitChar(25) == 'Z' && DigitChar(38) == 'm' && DigitChar(61) == '9' && DigitChar(47) == 'v';
    }
    assert EncodeGroup(98, 97, 114) == "YmFy" by {
      assert DigitChar(24) == 'Y' && DigitChar(38) == 'm' && DigitChar(5) == 'F' && DigitChar(50) == 'y';
    }
    assert Encode([102, 111, 111]) == "Zm9v";
    assert Encode([102, 111, 111, 98]) == "Zm9vYg==";
    assert Encode([102, 111, 111, 98, 97]) == "Zm9vYmE=";
    assert Encode([102, 111, 111, 98, 97, 114]) == "Zm9vYmFy";
    BtoaOfBytes("foo", [102, 111, 111]);
    BtoaOfBytes("foob", [102, 111, 111, 98]);
    BtoaOfBytes("fooba", [102, 111, 111, 98, 97]);
    BtoaOfBytes("foobar", [102, 111, 111, 98, 97, 114]);
  }

  /** `btoa` of a string is the encoding of its Latin-1 bytes. */
  lemma BtoaOfBytes(s: string, b: seq<Byte>)
    requires IsLatin1(s) && Latin1Bytes(s) == b
    ensures Btoa(s) == Some(Encode(b))
  {
  }
}
