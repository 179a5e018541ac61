/**
 * Base 64 encoding with the standard alphabet and `=` padding, as in
 * section 4 of RFC 4648 (Go's `base64.StdEncoding`), with a decoder that
 * inverts it.
 */
module Base64 {
  import opened Wrappers

  newtype byte = x: int | 0 <= x < 256

  /** A 6-bit value. */
  type sextet = x: int | 0 <= x < 64

  const Pad: char := '='

  /** The alphabet of section 4 of RFC 4648: A-Z, a-z, 0-9, `+`, `/`. */
  function Symbol(i: sextet): char
  {
    if i < 26 then ('A' as int + i) as char
    else if i < 52 then ('a' as int + (i - 26)) as char
    else if i < 62 then ('0' as int + (i - 52)) as char
    else if i == 62 then '+'
    else '/'
  }

  /** The value a symbol of the alphabet stands for; `None` for any other character. */
  function Value(c: char): (r: Option<sextet>)
    ensures r.Some? ==> Symbol(r.value) == c
  {
    if 'A' <= c <= 'Z' then Some((c as int - 'A' as int) as sextet)
    else if 'a' <= c <= 'z' then Some((c as int - 'a' as int + 26) as sextet)
    else if '0' <= c <= '9' then Some((c as int - '0' as int + 52) as sextet)
    else if c == '+' then Some(62)
    else if c == '/' then Some(63)
    else None
  }

  lemma ValueOfSymbol(i: sextet)
    ensures Value(Symbol(i)) == Some(i)
  {
  }

  /** The four symbols for three bytes. */
  function Quad(b0: byte, b1: byte, b2: byte): string
  {
    [ Symbol(b0 as int / 4),
      Symbol((b0 as int % 4) * 16 + b1 as int / 16),
      Symbol((b1 as int % 16) * 4 + b2 as int / 64),
      Symbol(b2 as int % 64) ]
  }

  /** Encodes `b`: every three bytes become four symbols, and a final group of one or two bytes is padded with `=`. */
  function Encode(b: seq<byte>): (s: string)
    ensures |s| == 4 * ((|b| + 2) / 3)
  {
    if |b| >= 3 then
      Quad(b[0], b[1], b[2]) + Encode(b[3..])
    else if |b| == 2 then
      Quad(b[0], b[1], 0)[..3] + [Pad]
    else if |b| == 1 then
      Quad(b[0], 0, 0)[..2] + [Pad, Pad]
    else
      ""
  }

  /** The three bytes four symbol values stand for. */
  function Bytes(v0: sextet, v1: sextet, v2: sextet, v3: sextet): seq<byte>
  {
    [ (v0 * 4 + v1 / 16) as byte,
      ((v1 % 16) * 16 + v2 / 4) as byte,
      ((v2 % 4) * 64 + v3) as byte ]
  }

  /**
   * Decodes one group of four characters; `last` says whether padding is
   * allowed in it. The bits a padded group leaves over must be zero, as
   * section 3.5 of RFC 4648 has the encoder write them.
   */
  function DecodeQuad(q: string, last: bool): Option<seq<byte>>
    requires |q| == 4
  {
    match (Value(q[0]), Value(q[1]), Value(q[2]), Value(q[3]))
    case (Some(v0), Some(v1), Some(v2), Some(v3)) => Some(Bytes(v0, v1, v2, v3))
    case (Some(v0), Some(v1), Some(v2), None) =>
      if last && q[3] == Pad && v2 % 4 == 0 then Some(Bytes(v0, v1, v2, 0)[..2]) else None
    case (Some(v0), Some(v1), None, None) =>
      if last && q[2] == Pad && q[3] == Pad && v1 % 16 == 0 then Some(Bytes(v0, v1, 0, 0)[..1]) else None
    case _ => None
  }

  /** The inverse of `Encode`: `None` when `s` is not a padded sequence of whole groups. */
  function Decode(s: string): Option<seq<byte>>
  {
    if |s| == 0 then Some([])
    else if |s| < 4 then None
    else
      match DecodeQuad(s[..4], |s| == 4)
      case None => None
      case Some(head) =>
        match Decode(s[4..])
        case None => None
        case Some(tail) => Some(head + tail)
  }

  /** The symbol values of `Quad(b0, b1, b2)` give back the three bytes. */
  lemma BytesOfQuad(b0: byte, b1: byte, b2: byte)
    ensures Bytes(b0 as int / 4, (b0 as int % 4) * 16 + b1 as int / 16,
                  (b1 as int % 16) * 4 + b2 as int / 64, b2 as int % 64) == [b0, b1, b2]
  {
    var x0, x1, x2 := b0 as int, b1 as int, b2 as int;
    var v1 := (x0 % 4) * 16 + x1 / 16;
    var v2 := (x1 % 16) * 4 + x2 / 64;
    assert v1 / 16 == x0 % 4 && v1 % 16 == x1 / 16;
    assert v2 / 4 == x1 % 16 && v2 % 4 == x2 / 64;
    assert (x0 / 4) * 4 + x0 % 4 == x0;
    assert (x1 / 16) * 16 + x1 % 16 == x1;
    assert (x2 / 64) * 64 + x2 % 64 == x2;
  }

  lemma DecodeFullQuad(q: string, last: bool, v0: sextet, v1: sextet, v2: sextet, v3: sextet)
    requires q == [Symbol(v0), Symbol(v1), Symbol(v2), Symbol(v3)]
    ensures DecodeQuad(q, last) == Some(Bytes(v0, v1, v2, v3))
  {
    ValueOfSymbol(v0); ValueOfSymbol(v1); ValueOfSymbol(v2); ValueOfSymbol(v3);
  }

  lemma QuadBytes(b0: byte, b1: byte, b2: byte, last: bool)
    ensures DecodeQuad(Quad(b0, b1, b2), last) == Some([b0, b1, b2])
  {
    DecodeFullQuad(Quad(b0, b1, b2), last, b0 as int / 4, (b0 as int % 4) * 16 + b1 as int / 16,
                   (b1 as int % 16) * 4 + b2 as int / 64, b2 as int % 64);
    BytesOfQuad(b0, b1, b2);
  }

  lemma PairBytes(b0: byte, b1: byte)
    ensures DecodeQuad(Quad(b0, b1, 0)[..3] + [Pad], true) == Some([b0, b1])
  {
    var v0, v1, v2 := b0 as int / 4, (b0 as int % 4) * 16 + b1 as int / 16, (b1 as int % 16) * 4;
    ValueOfSymbol(v0); ValueOfSymbol(v1); ValueOfSymbol(v2);
    var q := Quad(b0, b1, 0)[..3] + [Pad];
    assert q == [Symbol(v0), Symbol(v1), Symbol(v2), Pad];
    assert Value(q[3]) == None && v2 % 4 == 0;
    BytesOfQuad(b0, b1, 0);
    assert Bytes(v0, v1, v2, 0) == [b0, b1, 0];
    assert Bytes(v0, v1, v2, 0)[..2] == [b0, b1];
    assert DecodeQuad(q, true) == Some(Bytes(v0, v1, v2, 0)[..2]);
  }

  lemma SingleBytes(b0: byte)
    ensures DecodeQuad(Quad(b0, 0, 0)[..2] + [Pad, Pad], true) == Some([b0])
  {
    var v0, v1 := b0 as int / 4, (b0 as int % 4) * 16;
    ValueOfSymbol(v0); ValueOfSymbol(v1);
    var q := Quad(b0, 0, 0)[..2] + [Pad, Pad];
    assert q == [Symbol(v0), Symbol(v1), Pad, Pad];
    assert Value(q[2]) == None && Value(q[3]) == None && v1 % 16 == 0;
    BytesOfQuad(b0, 0, 0);
    assert Bytes(v0, v1, 0, 0) == [b0, 0, 0];
    assert Bytes(v0, v1, 0, 0)[..1] == [b0];
    assert DecodeQuad(q, true) == Some(Bytes(v0, v1, 0, 0)[..1]);
  }

  /** Decoding an encoding gives back the bytes. */
  lemma {:induction false} DecodeEncode(b: seq<byte>)
    ensures Decode(Encode(b)) == Some(b)
  {
    if |b| >= 3 {
      DecodeEncode(b[3..]);
      DecodeEncodeGroup(b);
      assert Encode(b) == Quad(b[0], b[1], b[2]) + Encode(b[3..]);
    } else if |b| == 2 {
      PairBytes(b[0], b[1]);
      DecodeStep(Encode(b), "", [b[0], b[1]], []);
      assert Encode(b) + "" == Encode(b) && [b[0], b[1]] + [] == b;
    } else if |b| == 1 {
      SingleBytes(b[0]);
      DecodeStep(Encode(b), "", [b[0]], []);
      assert Encode(b) + "" == Encode(b) && [b[0]] + [] == b;
    }
  }

  lemma DecodeEncodeGroup(b: seq<byte>)
    requires |b| >= 3 && Decode(Encode(b[3..])) == Some(b[3..])
    ensures Decode(Quad(b[0], b[1], b[2]) + Encode(b[3..])) == Some(b)
  {
    var q, rest := Quad(b[0], b[1], b[2]), Encode(b[3..]);
    QuadBytes(b[0], b[1], b[2], |rest| == 0);
    DecodeStep(q, rest, [b[0], b[1], b[2]], b[3..]);
    assert [b[0], b[1], b[2]] + b[3..] == b;
  }

  /** Decoding proceeds one group at a time. */
  lemma DecodeStep(q: string, rest: string, head: seq<byte>, tail: seq<byte>)
    requires |q| == 4 && DecodeQuad(q, |rest| == 0) == Some(head) && Decode(rest) == Some(tail)
    ensures Decode(q + rest) == Some(head + tail)
  {
    var s := q + rest;
    assert s[..4] == q && s[4..] == rest;
  }

  /** `hi * 4 + lo` divides back into `hi` and `lo`; likewise for 16 and 64. */
  lemma DivMod4(hi: int, lo: int)
    requires 0 <= lo < 4
    ensures (hi * 4 + lo) / 4 == hi && (hi * 4 + lo) % 4 == lo
  {
  }

  lemma DivMod16(hi: int, lo: int)
    requires 0 <= lo < 16
    ensures (hi * 16 + lo) / 16 == hi && (hi * 16 + lo) % 16 == lo
  {
  }

  lemma DivMod64(hi: int, lo: int)
    requires 0 <= lo < 64
    ensures (hi * 64 + lo) / 64 == hi && (hi * 64 + lo) % 64 == lo
  {
  }

  /** The symbol values of the bytes four symbol values stand for are those values. */
  lemma SextetsOfBytes(v0: sextet, v1: sextet, v2: sextet, v3: sextet)
    ensures var b := Bytes(v0, v1, v2, v3);
            && b[0] as int / 4 == v0
            && (b[0] as int % 4) * 16 + b[1] as int / 16 == v1
            && (b[1] as int % 16) * 4 + b[2] as int / 64 == v2
            && b[2] as int % 64 == v3
  {
    DivMod4(v0, v1 / 16);
    DivMod16(v1 % 16, v2 / 4);
    DivMod64(v2 % 4, v3);
    assert (v1 / 16) * 16 + v1 % 16 == v1;
    assert (v2 / 4) * 4 + v2 % 4 == v2;
  }

  /** The symbols for the bytes four symbol values stand for are those values' symbols. */
  lemma QuadOfBytes(v0: sextet, v1: sextet, v2: sextet, v3: sextet)
    ensures var b := Bytes(v0, v1, v2, v3);
            Quad(b[0], b[1], b[2]) == [Symbol(v0), Symbol(v1), Symbol(v2), Symbol(v3)]
  {
    SextetsOfBytes(v0, v1, v2, v3);
  }

  lemma FullGroupEncode(v0: sextet, v1: sextet, v2: sextet, v3: sextet)
    ensures Encode(Bytes(v0, v1, v2, v3)) == [Symbol(v0), Symbol(v1), Symbol(v2), Symbol(v3)]
  {
    var b := Bytes(v0, v1, v2, v3);
    QuadOfBytes(v0, v1, v2, v3);
    assert Encode(b) == Quad(b[0], b[1], b[2]) + Encode(b[3..]);
  }

  lemma PairGroupEncode(v0: sextet, v1: sextet, v2: sextet)
    requires v2 % 4 == 0
    ensures Encode(Bytes(v0, v1, v2, 0)[..2]) == [Symbol(v0), Symbol(v1), Symbol(v2), Pad]
  {
    var b := Bytes(v0, v1, v2, 0);
    QuadOfBytes(v0, v1, v2, 0);
    assert b[2] == 0;
    assert Encode(b[..2]) == Quad(b[0], b[1], 0)[..3] + [Pad];
  }

  lemma SingleGroupEncode(v0: sextet, v1: sextet)
    requires v1 % 16 == 0
    ensures Encode(Bytes(v0, v1, 0, 0)[..1]) == [Symbol(v0), Symbol(v1), Pad, Pad]
  {
    var b := Bytes(v0, v1, 0, 0);
    QuadOfBytes(v0, v1, 0, 0);
    assert b[1] == 0 && b[2] == 0;
    assert Encode(b[..1]) == Quad(b[0], 0, 0)[..2] + [Pad, Pad];
  }

  /** A group that decodes is the encoding of what it decodes to; only a last group may hold fewer than three bytes. */
  lemma EncodeDecodeQuad(q: string, last: bool, h: seq<byte>)
    requires |q| == 4 && DecodeQuad(q, last) == Some(h)
    ensures 1 <= |h| <= 3 && (|h| < 3 ==> last) && Encode(h) == q
  {
    var v0, v1 := Value(q[0]).value, Value(q[1]).value;
    if Value(q[2]).None? {
      assert Value(q[3]).None? && last && q[2] == Pad && q[3] == Pad && v1 % 16 == 0;
      assert h == Bytes(v0, v1, 0, 0)[..1];
      SingleGroupEncode(v0, v1);
      SymbolsEqual(q, [Symbol(v0), Symbol(v1), Pad, Pad]);
    } else if Value(q[3]).None? {
      var v2 := Value(q[2]).value;
      assert last && q[3] == Pad && v2 % 4 == 0;
      assert h == Bytes(v0, v1, v2, 0)[..2];
      PairGroupEncode(v0, v1, v2);
      SymbolsEqual(q, [Symbol(v0), Symbol(v1), Symbol(v2), Pad]);
    } else {
      var v2, v3 := Value(q[2]).value, Value(q[3]).value;
      assert h == Bytes(v0, v1, v2, v3);
      FullGroupEncode(v0, v1, v2, v3);
      SymbolsEqual(q, [Symbol(v0), Symbol(v1), Symbol(v2), Symbol(v3)]);
    }
  }

  /** Two four-character groups that agree position by position are equal. */
  lemma SymbolsEqual(q: string, r: string)
    requires |q| == 4 && |r| == 4 && q[0] == r[0] && q[1] == r[1] && q[2] == r[2] && q[3] == r[3]
    ensures q == r
  {
  }

  /** Every string that decodes is the standard encoding of what it decodes to, so the encoding of given bytes is unique. */
  lemma {:induction false} EncodeDecode(s: string, b: seq<byte>)
    requires Decode(s) == Some(b)
    ensures Encode(b) == s
    decreases |s|
  {
    if |s| > 0 {
      var head := DecodeQuad(s[..4], |s| == 4).value;
      var tail := Decode(s[4..]).value;
      assert b == head + tail;
      EncodeDecodeQuad(s[..4], |s| == 4, head);
      EncodeDecode(s[4..], tail);
      if |head| == 3 {
        assert b[3..] == tail;
        assert Encode(b) == Quad(head[0], head[1], head[2]) + Encode(tail);
      } else {
        assert s[4..] == [] && tail == [] && b == head;
      }
      assert s[..4] + s[4..] == s;
    }
  }

  /** Distinct byte strings have distinct encodings. */
  lemma EncodeInjective(b1: seq<byte>, b2: seq<byte>)
    requires Encode(b1) == Encode(b2)
    ensures b1 == b2
  {
    DecodeEncode(b1);
    DecodeEncode(b2);
  }

  /** A login state: 32 random bytes always encode to 44 characters, the last one padding. */
  lemma StateLength(b: seq<byte>)
    requires |b| == 32
    ensures |Encode(b)| == 44 && Encode(b)[43] == Pad
  {
    EncodeSuffix(b, 10);
    assert |b[30..]| == 2;
  }

  /** Encoding drops whole groups: the encoding of `b[3k..]` is the suffix of `Encode(b)` past its first 4k symbols. */
  lemma {:induction false} EncodeSuffix(b: seq<byte>, k: nat)
    requires 3 * k <= |b|
    ensures |Encode(b)| >= 4 * k && Encode(b)[4 * k..] == Encode(b[3 * k..])
  {
    if k > 0 {
      EncodeSuffix(b[3..], k - 1);
      assert b[3..][3 * (k - 1)..] == b[3 * k..];
      assert Encode(b)[4..] == Encode(b[3..]);
      assert Encode(b)[4..][4 * (k - 1)..] == Encode(b)[4 * k..];
    }
  }
}
