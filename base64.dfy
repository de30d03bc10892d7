/**
 * Go's `encoding/base64` with the standard alphabet of section 4 of RFC 4648:
 * `StdEncoding` (padded with '=') and `RawStdEncoding` (no padding).
 *
 * Encoding works on 3-byte quanta, each giving four characters of 6 bits.
 * `StdEncoding.DecodeString` is Go's non-strict decoder: it skips '\r' and
 * '\n', needs the padded length, allows padding only in the last quantum,
 * and accepts a final quantum whose unused low bits are not zero.
 */
module Base64 {
  import opened Base

  /** The character for a 6-bit value, in the order of RFC 4648, Table 1. */
  function Char(i: int): (c: char)
    requires 0 <= i < 64
    ensures c != '=' && c != '\r' && c != '\n'
  {
    if i < 26 then ('A' as int + i) as char
    else if i < 52 then ('a' as int + (i - 26)) as char
    else if i < 62 then ('0' as int + (i - 52)) as char
    else if i == 62 then '+'
    else '/'
  }

  /** The 6-bit value of an alphabet character, `None` for anything else. */
  function Index(c: char): (r: Option<int>)
    ensures r.Some? ==> 0 <= r.value < 64 && Char(r.value) == c
  {
    if 'A' <= c <= 'Z' then Some(c as int - 'A' as int)
    else if 'a' <= c <= 'z' then Some(c as int - 'a' as int + 26)
    else if '0' <= c <= '9' then Some(c as int - '0' as int + 52)
    else if c == '+' then Some(62)
    else if c == '/' then Some(63)
    else None
  }

  lemma IndexChar(i: int)
    requires 0 <= i < 64
    ensures Index(Char(i)) == Some(i)
  {
  }

  predicate InAlphabet(c: char)
  {
    Index(c).Some?
  }

  /** The four characters of a full quantum of three bytes. */
  function Quantum(b0: byte, b1: byte, b2: byte): (q: string)
    ensures |q| == 4 && forall k | 0 <= k < 4 :: InAlphabet(q[k])
  {
    IndexChar(b0 / 4);
    IndexChar((b0 % 4) * 16 + b1 / 16);
    IndexChar((b1 % 16) * 4 + b2 / 64);
    IndexChar(b2 % 64);
    [Char(b0 / 4), Char((b0 % 4) * 16 + b1 / 16), Char((b1 % 16) * 4 + b2 / 64), Char(b2 % 64)]
  }

  /** The characters of a last quantum holding one byte, before padding. */
  function Tail1(b0: byte): (q: string)
    ensures |q| == 2 && forall k | 0 <= k < 2 :: InAlphabet(q[k])
  {
    IndexChar(b0 / 4);
    IndexChar((b0 % 4) * 16);
    [Char(b0 / 4), Char((b0 % 4) * 16)]
  }

  /** The characters of a last quantum holding two bytes, before padding. */
  function Tail2(b0: byte, b1: byte): (q: string)
    ensures |q| == 3 && forall k | 0 <= k < 3 :: InAlphabet(q[k])
  {
    IndexChar(b0 / 4);
    IndexChar((b0 % 4) * 16 + b1 / 16);
    IndexChar((b1 % 16) * 4);
    [Char(b0 / 4), Char((b0 % 4) * 16 + b1 / 16), Char((b1 % 16) * 4)]
  }

  /** `base64.StdEncoding.EncodeToString`. */
  function Encode(b: Bytes): string
    decreases |b|
  {
    if |b| == 0 then ""
    else if |b| == 1 then Tail1(b[0]) + "=="
    else if |b| == 2 then Tail2(b[0], b[1]) + "="
    else Quantum(b[0], b[1], b[2]) + Encode(b[3..])
  }

  /** `base64.RawStdEncoding.EncodeToString`: as `Encode`, without the padding. */
  function RawEncode(b: Bytes): string
    decreases |b|
  {
    if |b| == 0 then ""
    else if |b| == 1 then Tail1(b[0])
    else if |b| == 2 then Tail2(b[0], b[1])
    else Quantum(b[0], b[1], b[2]) + RawEncode(b[3..])
  }

  /** The input without its '\r' and '\n' characters, which the decoder skips. */
  function StripNewlines(s: string): (r: string)
    ensures |r| <= |s|
    ensures forall k | 0 <= k < |r| :: r[k] != '\r' && r[k] != '\n'
    decreases |s|
  {
    if |s| == 0 then ""
    else if s[0] == '\r' || s[0] == '\n' then StripNewlines(s[1..])
    else [s[0]] + StripNewlines(s[1..])
  }

  /** The three bytes packed into four 6-bit values. */
  function Unpack3(c0: int, c1: int, c2: int, c3: int): Bytes
    requires 0 <= c0 < 64 && 0 <= c1 < 64 && 0 <= c2 < 64 && 0 <= c3 < 64
  {
    [c0 * 4 + c1 / 16, (c1 % 16) * 16 + c2 / 4, (c2 % 4) * 64 + c3]
  }

  /**
   * Decoding once newlines are gone: `None` is Go's `CorruptInputError`
   * (the offset it carries is not modelled).
   */
  function DecodeClean(s: string): Option<Bytes>
    decreases |s|
  {
    if |s| == 0 then Some([])
    else if |s| < 4 then None
    else
      var i0, i1, i2, i3 := Index(s[0]), Index(s[1]), Index(s[2]), Index(s[3]);
      if i0.None? || i1.None? then None
      else if i2.Some? && i3.Some? then
        match DecodeClean(s[4..])
        case None => None
        case Some(rest) => Some(Unpack3(i0.value, i1.value, i2.value, i3.value) + rest)
      else if |s| != 4 then None
      else if i2.None? && s[2] == '=' && s[3] == '=' then
        Some([i0.value * 4 + i1.value / 16])
      else if i2.Some? && s[3] == '=' then
        Some([i0.value * 4 + i1.value / 16, (i1.value % 16) * 16 + i2.value / 4])
      else None
  }

  /** `base64.StdEncoding.DecodeString`; `None` is a decoding error. */
  function Decode(s: string): Option<Bytes>
  {
    DecodeClean(StripNewlines(s))
  }

  lemma {:induction false} StripNewlinesId(s: string)
    requires forall k | 0 <= k < |s| :: s[k] != '\r' && s[k] != '\n'
    ensures StripNewlines(s) == s
    decreases |s|
  {
    if |s| > 0 {
      StripNewlinesId(s[1..]);
    }
  }

  /** The high and low parts of `hi * 16 + lo` come back out. */
  lemma Split16(hi: int, lo: int)
    requires 0 <= lo < 16
    ensures (hi * 16 + lo) / 16 == hi && (hi * 16 + lo) % 16 == lo
  {
  }

  lemma Split4(hi: int, lo: int)
    requires 0 <= lo < 4
    ensures (hi * 4 + lo) / 4 == hi && (hi * 4 + lo) % 4 == lo
  {
  }

  /** The 6-bit values of the first two characters give back the first byte. */
  lemma FirstByte(b0: byte, b1: byte)
    ensures var c0, c1 := b0 / 4, (b0 % 4) * 16 + b1 / 16;
      0 <= c1 < 64 && c0 * 4 + c1 / 16 == b0 && c1 % 16 == b1 / 16
  {
    Split16(b0 % 4, b1 / 16);
  }

  /** The second and third values give back the second byte. */
  lemma SecondByte(b1: byte, b2: byte)
    ensures var c1hi, c2 := b1 / 16, (b1 % 16) * 4 + b2 / 64;
      0 <= c2 < 64 && c1hi * 16 + c2 / 4 == b1 && c2 % 4 == b2 / 64
  {
    Split4(b1 % 16, b2 / 64);
  }

  lemma QuantumDecodes(b0: byte, b1: byte, b2: byte)
    ensures var q := Quantum(b0, b1, b2);
      Index(q[0]).Some? && Index(q[1]).Some? && Index(q[2]).Some? && Index(q[3]).Some?
      && Unpack3(Index(q[0]).value, Index(q[1]).value, Index(q[2]).value, Index(q[3]).value) == [b0, b1, b2]
  {
    var c0, c1, c2, c3 := b0 / 4, (b0 % 4) * 16 + b1 / 16, (b1 % 16) * 4 + b2 / 64, b2 % 64;
    FirstByte(b0, b1);
    SecondByte(b1, b2);
    IndexChar(c0);
    IndexChar(c1);
    IndexChar(c2);
    IndexChar(c3);
    assert (c2 % 4) * 64 + c3 == b2;
  }

  lemma {:induction false} EncodeAlphabet(b: Bytes)
    ensures forall k | 0 <= k < |Encode(b)| :: Encode(b)[k] == '=' || InAlphabet(Encode(b)[k])
    decreases |b|
  {
    if |b| >= 3 {
      EncodeAlphabet(b[3..]);
      var q, e := Quantum(b[0], b[1], b[2]), Encode(b[3..]);
      assert Encode(b) == q + e;
      forall k | 0 <= k < |q + e|
        ensures (q + e)[k] == '=' || InAlphabet((q + e)[k])
      {
        if k >= 4 {
          assert (q + e)[k] == e[k - 4];
        }
      }
    }
  }

  /** Encoded text holds no white space and no newline: it is one line. */
  lemma EncodeNoNewlines(b: Bytes)
    ensures forall k | 0 <= k < |Encode(b)| :: Encode(b)[k] != '\r' && Encode(b)[k] != '\n'
  {
    EncodeAlphabet(b);
  }

  /** What `StdEncoding` encodes, its decoder gives back. */
  lemma DecodeEncode(b: Bytes)
    ensures Decode(Encode(b)) == Some(b)
  {
    EncodeNoNewlines(b);
    StripNewlinesId(Encode(b));
    DecodeCleanEncode(b);
  }

  lemma DecodeOne(b0: byte)
    ensures DecodeClean(Tail1(b0) + "==") == Some([b0])
  {
    var c0, c1 := b0 / 4, (b0 % 4) * 16;
    FirstByte(b0, 0);
    IndexChar(c0);
    IndexChar(c1);
    var e := Tail1(b0) + "==";
    assert e == [Char(c0), Char(c1), '=', '='];
    assert Index('=') == None;
  }

  lemma DecodeTwo(b0: byte, b1: byte)
    ensures DecodeClean(Tail2(b0, b1) + "=") == Some([b0, b1])
  {
    var c0, c1, c2 := b0 / 4, (b0 % 4) * 16 + b1 / 16, (b1 % 16) * 4;
    FirstByte(b0, b1);
    SecondByte(b1, 0);
    IndexChar(c0);
    IndexChar(c1);
    IndexChar(c2);
    var e := Tail2(b0, b1) + "=";
    assert e == [Char(c0), Char(c1), Char(c2), '='];
    assert Index('=') == None;
  }

  lemma {:induction false} DecodeCleanEncode(b: Bytes)
    ensures DecodeClean(Encode(b)) == Some(b)
    decreases |b|
  {
    if |b| == 1 {
      DecodeOne(b[0]);
      assert [b[0]] == b;
    } else if |b| == 2 {
      DecodeTwo(b[0], b[1]);
      assert [b[0], b[1]] == b;
    } else if |b| >= 3 {
      var q, e := Quantum(b[0], b[1], b[2]), Encode(b[3..]);
      QuantumDecodes(b[0], b[1], b[2]);
      DecodeCleanEncode(b[3..]);
      assert (q + e)[..4] == q && (q + e)[4..] == e;
      assert [b[0], b[1], b[2]] + b[3..] == b;
    }
  }

  /** Two byte strings with the same encoding are equal. */
  lemma EncodeInjective(a: Bytes, b: Bytes)
    requires Encode(a) == Encode(b)
    ensures a == b
  {
    DecodeEncode(a);
    DecodeEncode(b);
  }

  /** `StdEncoding.EncodedLen`: four characters for every started quantum. */
  lemma {:induction false} EncodeLength(b: Bytes)
    ensures |Encode(b)| == 4 * ((|b| + 2) / 3)
    decreases |b|
  {
    if |b| >= 3 {
      EncodeLength(b[3..]);
      assert |Encode(b)| == 4 + |Encode(b[3..])|;
      QuantaStep(|b|);
    }
  }

  lemma QuantaStep(n: int)
    requires n >= 3
    ensures (n + 2) / 3 == (n - 3 + 2) / 3 + 1
  {
  }

  /** `RawStdEncoding.EncodedLen`: one character per started 6 bits. */
  lemma {:induction false} RawEncodeLength(b: Bytes)
    ensures |RawEncode(b)| == (|b| * 8 + 5) / 6
    decreases |b|
  {
    if |b| >= 3 {
      RawEncodeLength(b[3..]);
    }
  }

  lemma {:induction false} RawEncodeAlphabet(b: Bytes)
    ensures forall k | 0 <= k < |RawEncode(b)| :: InAlphabet(RawEncode(b)[k])
    decreases |b|
  {
    if |b| >= 3 {
      RawEncodeAlphabet(b[3..]);
      var q, e := Quantum(b[0], b[1], b[2]), RawEncode(b[3..]);
      forall k | 0 <= k < |q + e|
        ensures InAlphabet((q + e)[k])
      {
        if k >= 4 {
          assert (q + e)[k] == e[k - 4];
        }
      }
    }
  }
}
