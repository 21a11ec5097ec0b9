/**
  The byte encodings the server relies on: unpadded base64 in its two alphabets and base32
  (RFC 4648), and big-endian integers (section 6.3.1 of RFC 7518). Decoding follows Go's
  encoding/base64: line breaks are skipped and unused trailing bits are not checked.
 */
module Encoding {
  import opened Accounts

  type Byte = b: int | 0 <= b < 256

  type Bytes = seq<Byte>

  type Sextet = v: int | 0 <= v < 64

  type Quintet = v: int | 0 <= v < 32

  datatype Alphabet = Std | Url

  // ----- base64 -----

  function CharOf(a: Alphabet, v: Sextet): char {
    if v < 26 then 'A' + v as char
    else if v < 52 then 'a' + (v - 26) as char
    else if v < 62 then '0' + (v - 52) as char
    else if v == 62 then (if a.Std? then '+' else '-')
    else (if a.Std? then '/' else '_')
  }

  function ValueOf(a: Alphabet, c: char): Option<Sextet> {
    if 'A' <= c <= 'Z' then Some((c - 'A') as int)
    else if 'a' <= c <= 'z' then Some((c - 'a') as int + 26)
    else if '0' <= c <= '9' then Some((c - '0') as int + 52)
    else if c == (if a.Std? then '+' else '-') then Some(62)
    else if c == (if a.Std? then '/' else '_') then Some(63)
    else None
  }

  lemma CharReadsBack(a: Alphabet, v: Sextet)
    ensures ValueOf(a, CharOf(a, v)) == Some(v)
    ensures CharOf(a, v) != '\r' && CharOf(a, v) != '\n' && CharOf(a, v) != '$'
  {
  }

  function S0(a: Byte): Sextet { a / 4 }

  function S1(a: Byte, b: Byte): Sextet { a % 4 * 16 + b / 16 }

  function S2(b: Byte, c: Byte): Sextet { b % 16 * 4 + c / 64 }

  function S3(c: Byte): Sextet { c % 64 }

  /** Bytes regrouped six bits at a time; the last group is filled up with zero bits. */
  function Sextets(bs: Bytes): seq<Sextet>
    decreases |bs|
  {
    if |bs| == 0 then []
    else if |bs| == 1 then [S0(bs[0]), S1(bs[0], 0)]
    else if |bs| == 2 then [S0(bs[0]), S1(bs[0], bs[1]), S2(bs[1], 0)]
    else [S0(bs[0]), S1(bs[0], bs[1]), S2(bs[1], bs[2]), S3(bs[2])] + Sextets(bs[3..])
  }

  /** The three bytes that four sextets hold. */
  function First(p: int, q: int): Byte
    requires 0 <= p < 64 && 0 <= q < 64
  {
    p * 4 + q / 16
  }

  function Second(q: int, r: int): Byte
    requires 0 <= q < 64 && 0 <= r < 64
  {
    q % 16 * 16 + r / 4
  }

  function Third(r: int, s: int): Byte
    requires 0 <= r < 64 && 0 <= s < 64
  {
    r % 4 * 64 + s
  }

  /** And back; one left-over sextet cannot be the end of anything. */
  function Pack(vs: seq<Sextet>): Option<Bytes>
    decreases |vs|
  {
    if |vs| == 0 then Some([])
    else if |vs| == 1 then None
    else if |vs| == 2 then Some([First(vs[0], vs[1])])
    else if |vs| == 3 then Some([First(vs[0], vs[1]), Second(vs[1], vs[2])])
    else
      match Pack(vs[4..])
      case None => None
      case Some(rest) => Some([First(vs[0], vs[1]), Second(vs[1], vs[2]), Third(vs[2], vs[3])] + rest)
  }

  function Text(a: Alphabet, vs: seq<Sextet>): string {
    if vs == [] then "" else [CharOf(a, vs[0])] + Text(a, vs[1..])
  }

  function Values(a: Alphabet, s: string): Option<seq<Sextet>> {
    if s == "" then Some([])
    else if s[0] == '\r' || s[0] == '\n' then Values(a, s[1..])
    else
      match (ValueOf(a, s[0]), Values(a, s[1..]))
      case (Some(v), Some(rest)) => Some([v] + rest)
      case _ => None
  }

  function Encode64(a: Alphabet, bs: Bytes): string {
    Text(a, Sextets(bs))
  }

  function Decode64(a: Alphabet, s: string): Option<Bytes> {
    match Values(a, s)
    case None => None
    case Some(vs) => Pack(vs)
  }

  lemma {:induction false} TextReadsBack(a: Alphabet, vs: seq<Sextet>)
    ensures Values(a, Text(a, vs)) == Some(vs)
    ensures '$' !in Text(a, vs)
  {
    if vs != [] {
      CharReadsBack(a, vs[0]);
      TextReadsBack(a, vs[1..]);
      var s := Text(a, vs);
      assert s[0] == CharOf(a, vs[0]) && s[1..] == Text(a, vs[1..]);
      assert [vs[0]] + vs[1..] == vs;
    }
  }

  lemma {:induction false} PackReadsBack(bs: Bytes)
    ensures Pack(Sextets(bs)) == Some(bs)
    decreases |bs|
  {
    hide First, Second, Third, S0, S1, S2, S3;
    var vs := Sextets(bs);
    if |bs| >= 3 {
      PackReadsBack(bs[3..]);
      assert vs[4..] == Sextets(bs[3..]);
      ThreeBytes(bs[0], bs[1], bs[2]);
      assert [bs[0], bs[1], bs[2]] + bs[3..] == bs;
    } else if |bs| == 2 {
      ThreeBytes(bs[0], bs[1], 0);
      assert [bs[0], bs[1]] == bs;
    } else if |bs| == 1 {
      ThreeBytes(bs[0], 0, 0);
      assert [bs[0]] == bs;
    }
  }

  lemma ThreeBytes(x: Byte, y: Byte, z: Byte)
    ensures First(S0(x), S1(x, y)) == x
    ensures Second(S1(x, y), S2(y, z)) == y
    ensures Third(S2(y, z), S3(z)) == z
  {
  }

  /** Decoding gives back the encoded bytes, in either alphabet. */
  lemma Base64RoundTrip(a: Alphabet, bs: Bytes)
    ensures Decode64(a, Encode64(a, bs)) == Some(bs)
    ensures '$' !in Encode64(a, bs)
  {
    TextReadsBack(a, Sextets(bs));
    PackReadsBack(bs);
  }

  // ----- base32, whole groups of five bytes -----

  function Q0(a: Byte): Quintet { a / 8 }

  function Q1(a: Byte, b: Byte): Quintet { a % 8 * 4 + b / 64 }

  function Q2(b: Byte): Quintet { b / 2 % 32 }

  function Q3(b: Byte, c: Byte): Quintet { b % 2 * 16 + c / 16 }

  function Q4(c: Byte, d: Byte): Quintet { c % 16 * 2 + d / 128 }

  function Q5(d: Byte): Quintet { d / 4 % 32 }

  function Q6(d: Byte, e: Byte): Quintet { d % 4 * 8 + e / 32 }

  function Q7(e: Byte): Quintet { e % 32 }

  function Quintets(bs: Bytes): seq<Quintet>
    requires |bs| % 5 == 0
    decreases |bs|
  {
    if |bs| == 0 then []
    else
      [Q0(bs[0]), Q1(bs[0], bs[1]), Q2(bs[1]), Q3(bs[1], bs[2]), Q4(bs[2], bs[3]), Q5(bs[3]), Q6(bs[3], bs[4]),
       Q7(bs[4])]
      + Quintets(bs[5..])
  }

  function Char32(v: Quintet): char {
    if v < 26 then 'A' + v as char else '2' + (v - 26) as char
  }

  function Text32(vs: seq<Quintet>): (s: string)
    ensures |s| == |vs| && forall i :: 0 <= i < |s| ==> s[i] == Char32(vs[i])
  {
    if vs == [] then "" else [Char32(vs[0])] + Text32(vs[1..])
  }

  function Encode32(bs: Bytes): string
    requires |bs| % 5 == 0
  {
    Text32(Quintets(bs))
  }

  lemma FirstByte(a: Byte, b: Byte, a2: Byte, b2: Byte)
    requires Q0(a) == Q0(a2) && Q1(a, b) == Q1(a2, b2)
    ensures a == a2
  {
    assert a % 8 == Q1(a, b) / 4 && a2 % 8 == Q1(a2, b2) / 4;
  }

  lemma SplitSecond(b: Byte)
    ensures b == b / 64 * 64 + Q2(b) as int * 2 + b % 2
  {
    assert b / 2 == b / 64 * 32 + b / 2 % 32;
  }

  lemma HighPart(a: Byte, b: Byte)
    ensures b / 64 == Q1(a, b) % 4
  {
    var high: int, q: int := b / 64, Q1(a, b);
    assert 0 <= high < 4 && q == a % 8 * 4 + high;
  }

  lemma LowPart(b: Byte, c: Byte)
    ensures b % 2 == Q3(b, c) / 16
  {
    var low: int, q: int := b % 2, Q3(b, c);
    assert 0 <= c / 16 < 16 && q == low * 16 + c / 16;
  }

  lemma SecondParts(a: Byte, b: Byte, c: Byte)
    ensures b / 64 == Q1(a, b) % 4 && b % 2 == Q3(b, c) / 16
  {
    hide Q1, Q3;
    HighPart(a, b);
    LowPart(b, c);
  }

  lemma SecondByte(a: Byte, b: Byte, c: Byte, a2: Byte, b2: Byte, c2: Byte)
    requires Q1(a, b) == Q1(a2, b2) && Q2(b) == Q2(b2) && Q3(b, c) == Q3(b2, c2)
    ensures b == b2
  {
    hide Q1, Q2, Q3;
    SecondParts(a, b, c);
    SecondParts(a2, b2, c2);
    SplitSecond(b);
    SplitSecond(b2);
  }

  lemma ThirdByte(b: Byte, c: Byte, d: Byte, b2: Byte, c2: Byte, d2: Byte)
    requires Q3(b, c) == Q3(b2, c2) && Q4(c, d) == Q4(c2, d2)
    ensures c == c2
  {
    assert c / 16 == Q3(b, c) % 16 && c2 / 16 == Q3(b2, c2) % 16;
    assert c % 16 == Q4(c, d) / 2 && c2 % 16 == Q4(c2, d2) / 2;
  }

  lemma SplitFourth(d: Byte)
    ensures d == d / 128 * 128 + Q5(d) as int * 4 + d % 4
  {
    assert d / 4 == d / 128 * 32 + d / 4 % 32;
  }

  lemma FourthParts(c: Byte, d: Byte, e: Byte)
    ensures d / 128 == Q4(c, d) % 2 && d % 4 == Q6(d, e) / 8
  {
  }

  lemma FourthByte(c: Byte, d: Byte, e: Byte, c2: Byte, d2: Byte, e2: Byte)
    requires Q4(c, d) == Q4(c2, d2) && Q5(d) == Q5(d2) && Q6(d, e) == Q6(d2, e2)
    ensures d == d2
  {
    hide Q4, Q5, Q6;
    FourthParts(c, d, e);
    FourthParts(c2, d2, e2);
    SplitFourth(d);
    SplitFourth(d2);
  }

  lemma FifthByte(d: Byte, e: Byte, d2: Byte, e2: Byte)
    requires Q6(d, e) == Q6(d2, e2) && Q7(e) == Q7(e2)
    ensures e == e2
  {
    assert e / 32 == Q6(d, e) % 8 && e2 / 32 == Q6(d2, e2) % 8;
  }

  lemma {:induction false} QuintetsInjective(x: Bytes, y: Bytes)
    requires |x| % 5 == 0 && |y| == |x|
    requires Quintets(x) == Quintets(y)
    ensures x == y
    decreases |x|
  {
    hide Q0, Q1, Q2, Q3, Q4, Q5, Q6, Q7;
    if |x| != 0 {
      var p, q := Quintets(x), Quintets(y);
      assert p[0] == q[0] && p[1] == q[1] && p[2] == q[2] && p[3] == q[3];
      assert p[4] == q[4] && p[5] == q[5] && p[6] == q[6] && p[7] == q[7];
      FirstByte(x[0], x[1], y[0], y[1]);
      SecondByte(x[0], x[1], x[2], y[0], y[1], y[2]);
      ThirdByte(x[1], x[2], x[3], y[1], y[2], y[3]);
      FourthByte(x[2], x[3], x[4], y[2], y[3], y[4]);
      FifthByte(x[3], x[4], y[3], y[4]);
      assert p[8..] == Quintets(x[5..]) && q[8..] == Quintets(y[5..]);
      QuintetsInjective(x[5..], y[5..]);
      assert x[..5] == y[..5];
      assert x == x[..5] + x[5..] && y == y[..5] + y[5..];
    }
  }

  lemma {:induction false} QuintetCount(bs: Bytes)
    requires |bs| % 5 == 0
    ensures |Quintets(bs)| == |bs| / 5 * 8
    decreases |bs|
  {
    if |bs| != 0 {
      QuintetCount(bs[5..]);
    }
  }

  /** Different byte strings of one length have different base32 texts. */
  lemma Base32Injective(x: Bytes, y: Bytes)
    requires |x| % 5 == 0 && |y| == |x|
    requires Encode32(x) == Encode32(y)
    ensures x == y
  {
    QuintetCount(x);
    QuintetCount(y);
    var p, q := Quintets(x), Quintets(y);
    forall i | 0 <= i < |p| ensures p[i] == q[i] {
      assert Encode32(x)[i] == Char32(p[i]) && Encode32(y)[i] == Char32(q[i]);
    }
    QuintetsInjective(x, y);
  }

  // ----- big-endian integers -----

  function FromBytes(bs: Bytes): nat
    decreases |bs|
  {
    if bs == [] then 0 else FromBytes(bs[..|bs| - 1]) * 256 + bs[|bs| - 1]
  }

  /** big.Int.Bytes: no leading zero. */
  function ToBytes(n: nat): Bytes
    decreases n
  {
    if n == 0 then [] else ToBytes(n / 256) + [n % 256]
  }

  lemma {:induction false} BigEndianRoundTrip(n: nat)
    ensures FromBytes(ToBytes(n)) == n
    ensures n > 0 ==> ToBytes(n) != [] && ToBytes(n)[0] != 0
    decreases n
  {
    if n != 0 {
      BigEndianRoundTrip(n / 256);
      var bs := ToBytes(n);
      assert bs[..|bs| - 1] == ToBytes(n / 256);
      if n / 256 > 0 {
        assert bs[0] == ToBytes(n / 256)[0];
      }
    }
  }
}
