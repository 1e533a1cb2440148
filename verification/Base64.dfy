/** Lower-case hexadecimal, and base64url without padding (RFC 4648, sections 5 and 3.2). */
module Base64 {
  import opened CoreTypes

  type Byte = x: int | 0 <= x < 256
  type Sextet = x: int | 0 <= x < 64

  // ---------------------------------------------------------------- digits

  predicate IsTokenChar(c: char) {
    'A' <= c <= 'Z' || 'a' <= c <= 'z' || '0' <= c <= '9' || c == '-' || c == '_'
  }

  function CharOf(x: Sextet): (c: char)
    ensures IsTokenChar(c)
  {
    if x < 26 then ('A' as int + x) as char
    else if x < 52 then ('a' as int + (x - 26)) as char
    else if x < 62 then ('0' as int + (x - 52)) as char
    else if x == 62 then '-'
    else '_'
  }

  function ValueOf(c: char): (x: Sextet)
    requires IsTokenChar(c)
    ensures CharOf(x) == c
  {
    if 'A' <= c <= 'Z' then c as int - 'A' as int
    else if 'a' <= c <= 'z' then c as int - 'a' as int + 26
    else if '0' <= c <= '9' then c as int - '0' as int + 52
    else if c == '-' then 62
    else 63
  }

  /** The URL-safe alphabet of RFC 4648, table 2, at the ends of its stretches. */
  lemma UrlAlphabet()
    ensures CharOf(0) == 'A' && CharOf(25) == 'Z' && CharOf(26) == 'a' && CharOf(51) == 'z'
    ensures CharOf(52) == '0' && CharOf(61) == '9' && CharOf(62) == '-' && CharOf(63) == '_'
  {}

  lemma ValueOfChar(x: Sextet)
    ensures ValueOf(CharOf(x)) == x
  {}

  predicate IsHexDigit(c: char) {
    '0' <= c <= '9' || 'a' <= c <= 'f'
  }

  function HexDigit(x: int): (c: char)
    requires 0 <= x < 16
    ensures IsHexDigit(c)
  {
    if x < 10 then ('0' as int + x) as char else ('a' as int + (x - 10)) as char
  }

  function HexValue(c: char): (x: int)
    requires IsHexDigit(c)
    ensures 0 <= x < 16 && HexDigit(x) == c
  {
    if c <= '9' then c as int - '0' as int else c as int - 'a' as int + 10
  }

  // ---------------------------------------------------------------- hexadecimal

  predicate IsHex(s: string) {
    forall c | c in s :: IsHexDigit(c)
  }

  function ToHex(bytes: seq<Byte>): (s: string)
    ensures |s| == 2 * |bytes| && IsHex(s)
  {
    if bytes == [] then "" else [HexDigit(bytes[0] / 16), HexDigit(bytes[0] % 16)] + ToHex(bytes[1..])
  }

  function FromHex(s: string): (bytes: seq<Byte>)
    requires |s| % 2 == 0 && IsHex(s)
    ensures 2 * |bytes| == |s|
  {
    if s == "" then []
    else
      assert s[0] in s && s[1] in s;
      [HexValue(s[0]) * 16 + HexValue(s[1])] + FromHex(s[2..])
  }

  lemma HexValueOfDigit(x: int)
    requires 0 <= x < 16
    ensures HexValue(HexDigit(x)) == x
  {}

  lemma {:induction false} HexThenBytes(bytes: seq<Byte>)
    ensures FromHex(ToHex(bytes)) == bytes
  {
    if bytes != [] {
      HexThenBytes(bytes[1..]);
      HexValueOfDigit(bytes[0] / 16);
      HexValueOfDigit(bytes[0] % 16);
      assert ToHex(bytes)[2..] == ToHex(bytes[1..]);
    }
  }

  lemma HexByte(hi: int, lo: int)
    requires 0 <= hi < 16 && 0 <= lo < 16
    ensures (hi * 16 + lo) / 16 == hi && (hi * 16 + lo) % 16 == lo
  {}

  /** Two digits and the byte they make. */
  lemma OneHexPair(a: char, b: char)
    requires IsHexDigit(a) && IsHexDigit(b)
    ensures var byte := HexValue(a) * 16 + HexValue(b);
            0 <= byte < 256 && HexDigit(byte / 16) == a && HexDigit(byte % 16) == b
  {
    HexByte(HexValue(a), HexValue(b));
  }

  lemma FirstPair(a: char, b: char, rest: seq<Byte>)
    requires IsHexDigit(a) && IsHexDigit(b)
    ensures ToHex([HexValue(a) * 16 + HexValue(b)] + rest) == [a, b] + ToHex(rest)
  {
    OneHexPair(a, b);
    OneHexByte(HexValue(a) * 16 + HexValue(b), rest);
  }

  lemma {:induction false} BytesThenHex(s: string)
    requires |s| % 2 == 0 && IsHex(s)
    ensures ToHex(FromHex(s)) == s
  {
    if s != "" {
      assert s[0] in s && s[1] in s;
      BytesThenHex(s[2..]);
      FirstPair(s[0], s[1], FromHex(s[2..]));
      assert s == [s[0], s[1]] + s[2..];
    }
  }

  lemma OneHexByte(b: Byte, rest: seq<Byte>)
    ensures ToHex([b] + rest) == [HexDigit(b / 16), HexDigit(b % 16)] + ToHex(rest)
  {
    assert ([b] + rest)[1..] == rest;
  }

  // ---------------------------------------------------------------- base64url

  predicate IsToken(s: string) {
    forall c | c in s :: IsTokenChar(c)
  }

  datatype Quad = Quad(x: Sextet, y: Sextet, z: Sextet, w: Sextet)
  datatype Triple = Triple(a: Byte, b: Byte, c: Byte)

  function Split(t: Triple): Quad {
    Quad(t.a / 4, t.a % 4 * 16 + t.b / 16, t.b % 16 * 4 + t.c / 64, t.c % 64)
  }

  function Join(q: Quad): Triple {
    Triple(q.x * 4 + q.y / 16, q.y % 16 * 16 + q.z / 4, q.z % 4 * 64 + q.w)
  }

  lemma By4(q: int, r: int)
    requires 0 <= r < 4
    ensures (q * 4 + r) / 4 == q && (q * 4 + r) % 4 == r
  {}

  lemma By16(q: int, r: int)
    requires 0 <= r < 16
    ensures (q * 16 + r) / 16 == q && (q * 16 + r) % 16 == r
  {}

  lemma By64(q: int, r: int)
    requires 0 <= r < 64
    ensures (q * 64 + r) / 64 == q && (q * 64 + r) % 64 == r
  {}

  lemma JoinSplit(t: Triple)
    ensures Join(Split(t)) == t
  {
    By16(t.a % 4, t.b / 16);
    By4(t.b % 16, t.c / 64);
  }

  lemma SplitJoin(q: Quad)
    ensures Split(Join(q)) == q
  {
    By4(q.x, q.y / 16);
    By16(q.y % 16, q.z / 4);
    By64(q.z % 4, q.w);
  }

  /** Whole groups of three bytes become four digits; a rest of one or two bytes becomes two or three,
      whose unused low bits are zero. */
  function Sextets(b: seq<Byte>): seq<Sextet> {
    if |b| == 0 then []
    else if |b| == 1 then (var q := Split(Triple(b[0], 0, 0)); [q.x, q.y])
    else if |b| == 2 then (var q := Split(Triple(b[0], b[1], 0)); [q.x, q.y, q.z])
    else (var q := Split(Triple(b[0], b[1], b[2])); [q.x, q.y, q.z, q.w] + Sextets(b[3..]))
  }

  /** The lenient decoder: it ignores the unused bits of a final short group, and a single left-over
      digit stands for nothing. */
  function Bytes(d: seq<Sextet>): seq<Byte> {
    if |d| < 2 then []
    else if |d| == 2 then [Join(Quad(d[0], d[1], 0, 0)).a]
    else if |d| == 3 then (var t := Join(Quad(d[0], d[1], d[2], 0)); [t.a, t.b])
    else (var t := Join(Quad(d[0], d[1], d[2], d[3])); [t.a, t.b, t.c] + Bytes(d[4..]))
  }

  /** The last digit of a final group of two or three leaves its unused bits zero. */
  predicate LastBitsZero(d: seq<Sextet>) {
    (|d| % 4 == 2 ==> d[|d| - 1] % 16 == 0) && (|d| % 4 == 3 ==> d[|d| - 1] % 4 == 0)
  }

  lemma {:induction false} SextetCount(b: seq<Byte>)
    ensures |Sextets(b)| == |b| / 3 * 4 + (if |b| % 3 == 0 then 0 else |b| % 3 + 1)
  {
    if |b| >= 3 {
      SextetCount(b[3..]);
    }
  }

  lemma {:induction false} ByteCount(d: seq<Sextet>)
    ensures |Bytes(d)| == |d| / 4 * 3 + (if |d| % 4 == 0 then 0 else |d| % 4 - 1)
  {
    if |d| >= 4 {
      ByteCount(d[4..]);
    }
  }

  lemma {:induction false} BytesOfSextets(b: seq<Byte>)
    ensures Bytes(Sextets(b)) == b
  {
    if |b| == 1 {
      JoinSplit(Triple(b[0], 0, 0));
    } else if |b| == 2 {
      JoinSplit(Triple(b[0], b[1], 0));
    } else if |b| >= 3 {
      JoinSplit(Triple(b[0], b[1], b[2]));
      BytesOfSextets(b[3..]);
      assert Sextets(b)[4..] == Sextets(b[3..]);
      assert b == [b[0], b[1], b[2]] + b[3..];
    }
  }

  lemma TwoDigits(x: Sextet, y: Sextet)
    ensures Sextets(Bytes([x, y])) == [x, y] <==> y % 16 == 0
  {
    SplitJoin(Quad(x, y / 16 * 16, 0, 0));
  }

  lemma ThreeDigits(x: Sextet, y: Sextet, z: Sextet)
    ensures Sextets(Bytes([x, y, z])) == [x, y, z] <==> z % 4 == 0
  {
    SplitJoin(Quad(x, y, z / 4 * 4, 0));
  }

  lemma OneGroup(q: Quad, rest: seq<Sextet>)
    ensures Sextets(Bytes([q.x, q.y, q.z, q.w] + rest)) == [q.x, q.y, q.z, q.w] + Sextets(Bytes(rest))
  {
    var d, t := [q.x, q.y, q.z, q.w] + rest, Join(q);
    SplitJoin(q);
    assert d[4..] == rest;
    assert Bytes(d) == [t.a, t.b, t.c] + Bytes(rest);
    assert Bytes(d)[3..] == Bytes(rest);
  }

  lemma LastBitsAreTheRests(d: seq<Sextet>)
    requires |d| >= 4 && |d| % 4 != 1
    ensures LastBitsZero(d) == LastBitsZero(d[4..])
  {
    assert |d[4..]| % 4 == |d| % 4;
  }

  lemma SameFront(front: seq<Sextet>, a: seq<Sextet>, b: seq<Sextet>)
    ensures front + a == front + b <==> a == b
  {
    assert (front + a)[|front|..] == a && (front + b)[|front|..] == b;
  }

  /** Encoding what the lenient decoder returns gives the digits back exactly when the unused bits are
      zero (RFC 4648, section 3.5). */
  lemma {:induction false} SextetsOfBytes(d: seq<Sextet>)
    requires |d| % 4 != 1
    ensures Sextets(Bytes(d)) == d <==> LastBitsZero(d)
  {
    if |d| == 2 {
      TwoDigits(d[0], d[1]);
      assert d == [d[0], d[1]];
    } else if |d| == 3 {
      ThreeDigits(d[0], d[1], d[2]);
      assert d == [d[0], d[1], d[2]];
    } else if |d| >= 4 {
      var group, rest := [d[0], d[1], d[2], d[3]], d[4..];
      SextetsOfBytes(rest);
      LastBitsAreTheRests(d);
      assert d == group + rest;
      OneGroup(Quad(d[0], d[1], d[2], d[3]), rest);
      SameFront(group, Sextets(Bytes(rest)), rest);
    }
  }

  // ---------------------------------------------------------------- texts

  function TextOf(d: seq<Sextet>): (s: string)
    ensures |s| == |d| && IsToken(s)
    ensures forall i | 0 <= i < |d| :: s[i] == CharOf(d[i])
  {
    seq(|d|, i requires 0 <= i < |d| => CharOf(d[i]))
  }

  function DigitsOf(s: string): (d: seq<Sextet>)
    requires IsToken(s)
    ensures |d| == |s| && forall i | 0 <= i < |s| :: d[i] == ValueOf(s[i])
  {
    seq(|s|, i requires 0 <= i < |s| => ValueOf(s[i]))
  }

  lemma TextOfDigits(s: string)
    requires IsToken(s)
    ensures TextOf(DigitsOf(s)) == s
  {}

  lemma DigitsOfText(d: seq<Sextet>)
    ensures DigitsOf(TextOf(d)) == d
  {
    forall i | 0 <= i < |d| ensures DigitsOf(TextOf(d))[i] == d[i] {
      ValueOfChar(d[i]);
    }
  }

  function Encode(b: seq<Byte>): (s: string)
    ensures IsToken(s)
  {
    TextOf(Sextets(b))
  }

  function Decode(s: string): seq<Byte>
    requires IsToken(s)
  {
    Bytes(DigitsOf(s))
  }

  /** Decoding what was encoded gives the bytes back; hence the form of some bytes is theirs alone. */
  lemma DecodeEncode(b: seq<Byte>)
    ensures Decode(Encode(b)) == b
  {
    DigitsOfText(Sextets(b));
    BytesOfSextets(b);
  }

  lemma EncodeDecode(s: string)
    requires IsToken(s) && |s| % 4 != 1
    ensures Encode(Decode(s)) == s <==> LastBitsZero(DigitsOf(s))
  {
    TextOfDigits(s);
    SextetsOfBytes(DigitsOf(s));
    DigitsOfText(Sextets(Bytes(DigitsOf(s))));
  }
}
