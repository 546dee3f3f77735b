/**
 * UUIDs as the stores use them: sixteen bytes, the all-zero Nil value, the canonical
 * text form of RFC 4122 section 3 (lower-case hex on output, either case on input)
 * and the version-4 stamping of RFC 4122 section 4.4 applied to random bytes.
 */
module Uuids {
  import opened Wrappers
  import opened Strings

  type Byte = x: int | 0 <= x < 256

  type Uuid = s: seq<Byte> | |s| == 16 witness [0, 0, 0, 0, 0, 0, 0, 0, 0, 0, 0, 0, 0, 0, 0, 0]

  /** `uuid.Nil`. */
  const Nil: Uuid := [0, 0, 0, 0, 0, 0, 0, 0, 0, 0, 0, 0, 0, 0, 0, 0]

  const HexDigits: string := "0123456789abcdef"

  function HexDigit(n: nat): (c: char)
    requires n < 16
    ensures '0' <= c <= '9' || 'a' <= c <= 'f'
  {
    HexDigits[n]
  }

  /** The value of one hex digit, upper or lower case. */
  function HexValue(c: char): (r: Option<nat>)
    ensures r.Some? ==> r.value < 16
    ensures r.Some? <==> ('0' <= c <= '9' || 'a' <= c <= 'f' || 'A' <= c <= 'F')
  {
    if '0' <= c <= '9' then Some(c as int - '0' as int)
    else if 'a' <= c <= 'f' then Some(c as int - 'a' as int + 10)
    else if 'A' <= c <= 'F' then Some(c as int - 'A' as int + 10)
    else None
  }

  lemma HexValueOfDigit(n: nat)
    requires n < 16
    ensures HexValue(HexDigit(n)) == Some(n)
  {
  }

  /** Two lower-case hex digits per byte, high nibble first. */
  function HexBytes(bs: seq<Byte>): (s: string)
    ensures |s| == 2 * |bs|
    ensures NoUpperLetters(s)
  {
    if bs == [] then "" else [HexDigit(bs[0] / 16), HexDigit(bs[0] % 16)] + HexBytes(bs[1..])
  }

  lemma {:induction false} HexBytesAppend(a: seq<Byte>, b: seq<Byte>)
    ensures HexBytes(a + b) == HexBytes(a) + HexBytes(b)
  {
    if a != [] {
      var c := [HexDigit(a[0] / 16), HexDigit(a[0] % 16)];
      assert (a + b)[0] == a[0];
      assert (a + b)[1..] == a[1..] + b;
      assert HexBytes(a + b) == c + HexBytes(a[1..] + b);
      HexBytesAppend(a[1..], b);
      assert HexBytes(a) == c + HexBytes(a[1..]);
    } else {
      assert a + b == b;
    }
  }

  /** Decodes an even number of hex digits into bytes; anything else is refused. */
  function ParseHexBytes(s: string): (r: Option<seq<Byte>>)
    ensures r.Some? ==> 2 * |r.value| == |s|
  {
    if s == [] then Some([])
    else if |s| == 1 then None
    else match (HexValue(s[0]), HexValue(s[1]), ParseHexBytes(s[2..]))
      case (Some(hi), Some(lo), Some(rest)) => Some([hi * 16 + lo] + rest)
      case _ => None
  }

  lemma {:induction false} ParseHexBytesInverse(bs: seq<Byte>)
    ensures ParseHexBytes(HexBytes(bs)) == Some(bs)
  {
    if bs != [] {
      var hi, lo := bs[0] / 16, bs[0] % 16;
      var rest := HexBytes(bs[1..]);
      var s := [HexDigit(hi), HexDigit(lo)] + rest;
      assert HexBytes(bs) == s;
      assert s[0] == HexDigit(hi) && s[1] == HexDigit(lo) && s[2..] == rest;
      HexValueOfDigit(hi);
      HexValueOfDigit(lo);
      ParseHexBytesInverse(bs[1..]);
      assert hi * 16 + lo == bs[0];
      assert bs == [bs[0]] + bs[1..];
    }
  }

  /** `UUID.String()`: xxxxxxxx-xxxx-xxxx-xxxx-xxxxxxxxxxxx in lower-case hex. */
  function Format(u: Uuid): (s: string)
    ensures |s| == 36
    ensures s[8] == s[13] == s[18] == s[23] == '-'
    ensures NoUpperLetters(s)
  {
    HexBytes(u[..4]) + "-" + HexBytes(u[4..6]) + "-" + HexBytes(u[6..8]) + "-"
      + HexBytes(u[8..10]) + "-" + HexBytes(u[10..])
  }

  /** The 32 hex digits of a canonical text, with the four dashes taken out. */
  function Digits(s: string): (d: string)
    requires |s| == 36
    ensures |d| == 32
  {
    s[..8] + s[9..13] + s[14..18] + s[19..23] + s[24..]
  }

  /** `uuid.Parse` for the canonical 36-character form; hex digits may be of either case. */
  function Parse(s: string): (r: Option<Uuid>)
    ensures r.Some? ==> |s| == 36 && s[8] == s[13] == s[18] == s[23] == '-'
  {
    if |s| != 36 || s[8] != '-' || s[13] != '-' || s[18] != '-' || s[23] != '-' then None
    else match ParseHexBytes(Digits(s))
      case Some(bs) => Some(bs)
      case None => None
  }

  /** Text form and parsing are inverse: every UUID survives a round trip through its text. */
  lemma FormatThenParse(u: Uuid)
    ensures Parse(Format(u)) == Some(u)
  {
    DigitsOfFormat(u);
    ParseHexBytesInverse(u);
  }

  lemma DigitsOfFormat(u: Uuid)
    ensures Digits(Format(u)) == HexBytes(u)
  {
    var p1, p2, p3, p4, p5 := HexBytes(u[..4]), HexBytes(u[4..6]), HexBytes(u[6..8]),
      HexBytes(u[8..10]), HexBytes(u[10..]);
    var s := p1 + "-" + p2 + "-" + p3 + "-" + p4 + "-" + p5;
    assert Format(u) == s;
    assert s[..8] == p1;
    assert s[9..13] == p2;
    assert s[14..18] == p3;
    assert s[19..23] == p4;
    assert s[24..] == p5;
    HexBytesAppend(u[..4], u[4..6]);
    assert u[..4] + u[4..6] == u[..6];
    HexBytesAppend(u[..6], u[6..8]);
    assert u[..6] + u[6..8] == u[..8];
    HexBytesAppend(u[..8], u[8..10]);
    assert u[..8] + u[8..10] == u[..10];
    HexBytesAppend(u[..10], u[10..]);
    assert u[..10] + u[10..] == u;
  }

  /**
   * The text form of a UUID assembled from the hex of seven pieces of its bytes (the first
   * group split in two halves, the last in two thirds), and the parse of that text back.
   */
  lemma TextOfGroups(u: Uuid, b1: seq<Byte>, b2: seq<Byte>, b3: seq<Byte>, b4: seq<Byte>, b5: seq<Byte>,
                     b6: seq<Byte>, b7: seq<Byte>, p1: string, p2: string, p3: string, p4: string,
                     p5: string, p6: string, p7: string, text: string)
    requires |b1| == 2 && |b2| == 2 && |b3| == 2 && |b4| == 2 && |b5| == 2
    requires u == b1 + b2 + b3 + b4 + b5 + (b6 + b7)
    requires HexBytes(b1) == p1 && HexBytes(b2) == p2 && HexBytes(b3) == p3 && HexBytes(b4) == p4
    requires HexBytes(b5) == p5 && HexBytes(b6) == p6 && HexBytes(b7) == p7
    requires text == p1 + p2 + "-" + p3 + "-" + p4 + "-" + p5 + "-" + (p6 + p7)
    ensures Format(u) == text
    ensures Parse(text) == Some(u)
  {
    HexBytesAppend(b1, b2);
    HexBytesAppend(b6, b7);
    TextOfFiveGroups(u, b1 + b2, b3, b4, b5, b6 + b7, p1 + p2, p3, p4, p5, p6 + p7, text);
  }

  lemma TextOfFiveGroups(u: Uuid, g1: seq<Byte>, g2: seq<Byte>, g3: seq<Byte>, g4: seq<Byte>, g5: seq<Byte>,
                         t1: string, t2: string, t3: string, t4: string, t5: string, text: string)
    requires |g1| == 4 && |g2| == 2 && |g3| == 2 && |g4| == 2
    requires u == g1 + g2 + g3 + g4 + g5
    requires HexBytes(g1) == t1 && HexBytes(g2) == t2 && HexBytes(g3) == t3
    requires HexBytes(g4) == t4 && HexBytes(g5) == t5
    requires text == t1 + "-" + t2 + "-" + t3 + "-" + t4 + "-" + t5
    ensures Format(u) == text
    ensures Parse(text) == Some(u)
  {
    FormatOfGroups(u, g1, g2, g3, g4, g5);
    FormatThenParse(u);
  }

  /** The text form of a UUID given as its five dash-separated groups of bytes. */
  lemma FormatOfGroups(u: Uuid, g1: seq<Byte>, g2: seq<Byte>, g3: seq<Byte>, g4: seq<Byte>, g5: seq<Byte>)
    requires |g1| == 4 && |g2| == 2 && |g3| == 2 && |g4| == 2
    requires u == g1 + g2 + g3 + g4 + g5
    ensures Format(u) == HexBytes(g1) + "-" + HexBytes(g2) + "-" + HexBytes(g3) + "-"
      + HexBytes(g4) + "-" + HexBytes(g5)
  {
    assert u[..4] == g1;
    assert u[4..6] == g2;
    assert u[6..8] == g3;
    assert u[8..10] == g4;
    assert u[10..] == g5;
  }

  /** Distinct UUIDs have distinct text forms. */
  lemma FormatInjective(u: Uuid, v: Uuid)
    requires Format(u) == Format(v)
    ensures u == v
  {
    FormatThenParse(u);
    FormatThenParse(v);
  }

  /**
   * `uuid.New()`: random bytes with the version nibble set to 4 and the variant bits
   * set to 10. The random bytes are a parameter.
   */
  function NewRandom(random: Uuid): (u: Uuid)
    ensures u[6] / 16 == 4 && u[8] / 64 == 2
    ensures forall i :: 0 <= i < 16 && i != 6 && i != 8 ==> u[i] == random[i]
  {
    random[6 := random[6] % 16 + 0x40][8 := random[8] % 64 + 0x80]
  }

  /** A freshly generated UUID is never Nil. */
  lemma NewRandomNotNil(random: Uuid)
    ensures NewRandom(random) != Nil
  {
    assert NewRandom(random)[6] != Nil[6];
  }
}
