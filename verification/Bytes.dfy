/** Node's hex and base64url encodings of byte buffers. */
module Bytes {
  type Byte = b: int | 0 <= b < 256

  type Sextet = v: int | 0 <= v < 64

  // ---------- hex ----------

  function HexDigit(v: nat): char
    requires v < 16
  {
    if v < 10 then '0' + v as char else 'a' + (v - 10) as char
  }

  /** The value of a hex digit in either case, or -1. */
  function HexValue(c: char): (v: int)
    ensures -1 <= v < 16
  {
    if '0' <= c <= '9' then c as int - '0' as int
    else if 'a' <= c <= 'f' then c as int - 'a' as int + 10
    else if 'A' <= c <= 'F' then c as int - 'A' as int + 10
    else -1
  }

  /** `buffer.toString('hex')`. */
  function ToHex(bytes: seq<Byte>): string {
    if bytes == [] then "" else [HexDigit(bytes[0] / 16), HexDigit(bytes[0] % 16)] + ToHex(bytes[1..])
  }

  /** `Buffer.from(s, 'hex')`: stops silently at the first pair that is not hex. */
  function FromHex(s: string): seq<Byte> {
    if |s| < 2 || HexValue(s[0]) < 0 || HexValue(s[1]) < 0 then []
    else [HexValue(s[0]) * 16 + HexValue(s[1])] + FromHex(s[2..])
  }

  lemma {:induction false} HexRoundTrip(bytes: seq<Byte>)
    ensures FromHex(ToHex(bytes)) == bytes && |ToHex(bytes)| == 2 * |bytes|
    ensures forall c | c in ToHex(bytes) :: '0' <= c <= '9' || 'a' <= c <= 'f'
  {
    if bytes != [] {
      HexRoundTrip(bytes[1..]);
      assert ToHex(bytes)[2..] == ToHex(bytes[1..]);
    }
  }

  /** Byte `i` is spelt by two digits, the high one first, in small letters. */
  lemma {:induction false} HexSpells(bytes: seq<Byte>, i: nat)
    requires i < |bytes|
    ensures |ToHex(bytes)| == 2 * |bytes|
    ensures var high, low := ToHex(bytes)[2 * i], ToHex(bytes)[2 * i + 1];
      && ('0' <= high <= '9' || 'a' <= high <= 'f') && ('0' <= low <= '9' || 'a' <= low <= 'f')
      && bytes[i] == 16 * (if high <= '9' then high as int - 48 else high as int - 87)
                     + if low <= '9' then low as int - 48 else low as int - 87
  {
    HexRoundTrip(bytes);
    if i > 0 {
      HexSpells(bytes[1..], i - 1);
      assert ToHex(bytes)[2..] == ToHex(bytes[1..]);
      assert ToHex(bytes)[2 * i] == ToHex(bytes)[2..][2 * (i - 1)] && ToHex(bytes)[2 * i + 1] == ToHex(bytes)[2..][2 * (i - 1) + 1];
    }
  }

  // ---------- base64url ----------

  function Symbol(v: Sextet): char {
    if v < 26 then 'A' + v as char
    else if v < 52 then 'a' + (v - 26) as char
    else if v < 62 then '0' + (v - 52) as char
    else if v == 62 then '-' else '_'
  }

  /** The value of a symbol of either base64 alphabet, or -1. */
  function SymbolValue(c: char): (v: int)
    ensures -1 <= v < 64
  {
    if 'A' <= c <= 'Z' then c as int - 'A' as int
    else if 'a' <= c <= 'z' then c as int - 'a' as int + 26
    else if '0' <= c <= '9' then c as int - '0' as int + 52
    else if c == '-' || c == '+' then 62
    else if c == '_' || c == '/' then 63
    else -1
  }

  /** `buffer.toString('base64url')`: no padding. */
  function ToBase64Url(b: seq<Byte>): string {
    if b == [] then ""
    else if |b| == 1 then [Symbol(b[0] / 4), Symbol(b[0] % 4 * 16)]
    else if |b| == 2 then [Symbol(b[0] / 4), Symbol(b[0] % 4 * 16 + b[1] / 16), Symbol(b[1] % 16 * 4)]
    else
      [Symbol(b[0] / 4), Symbol(b[0] % 4 * 16 + b[1] / 16), Symbol(b[1] % 16 * 4 + b[2] / 64), Symbol(b[2] % 64)]
      + ToBase64Url(b[3..])
  }

  /** The values of the base64 symbols of `s`; other characters are skipped. */
  function Symbols(s: string): seq<Sextet> {
    if s == "" then []
    else if SymbolValue(s[0]) < 0 then Symbols(s[1..])
    else [SymbolValue(s[0])] + Symbols(s[1..])
  }

  function Byte0(v0: int, v1: int): Byte
    requires 0 <= v0 < 64 && 0 <= v1 < 64
  {
    v0 * 4 + v1 / 16
  }

  function Byte1(v1: int, v2: int): Byte
    requires 0 <= v1 < 64 && 0 <= v2 < 64
  {
    v1 % 16 * 16 + v2 / 4
  }

  function Byte2(v2: int, v3: int): Byte
    requires 0 <= v2 < 64 && 0 <= v3 < 64
  {
    v2 % 4 * 64 + v3
  }

  /** Four symbols give three bytes; a last group of two or three gives one or two, a lone symbol none. */
  function Regroup(v: seq<Sextet>): seq<Byte> {
    if |v| < 2 then []
    else if |v| == 2 then [Byte0(v[0], v[1])]
    else if |v| == 3 then [Byte0(v[0], v[1]), Byte1(v[1], v[2])]
    else [Byte0(v[0], v[1]), Byte1(v[1], v[2]), Byte2(v[2], v[3])] + Regroup(v[4..])
  }

  /** `Buffer.from(s, 'base64url')`. */
  function FromBase64Url(s: string): seq<Byte> {
    Regroup(Symbols(s))
  }

  /** The examples of section 10 of RFC 4648, without padding, and the last two symbols of its section 5. */
  lemma KnownVectors()
    ensures ToBase64Url([102]) == "Zg" && ToBase64Url([102, 111]) == "Zm8" && ToBase64Url([102, 111, 111]) == "Zm9v"
    ensures ToBase64Url([102, 111, 111, 98]) == "Zm9vYg" && ToBase64Url([102, 111, 111, 98, 97, 114]) == "Zm9vYmFy"
    ensures ToBase64Url([251, 255]) == "-_8"
  {
    assert [102, 111, 111, 98][3..] == [98];
    assert [102, 111, 111, 98, 97, 114][3..] == [98, 97, 114];
  }

  lemma SymbolRoundTrip(v: Sextet)
    ensures SymbolValue(Symbol(v)) == v
  {
  }

  lemma SymbolsStep(v: Sextet, s: string)
    ensures Symbols([Symbol(v)] + s) == [v] + Symbols(s)
  {
    SymbolRoundTrip(v);
    assert ([Symbol(v)] + s)[1..] == s;
  }

  lemma SymbolsOf3(v0: Sextet, v1: Sextet, v2: Sextet, s: string)
    ensures Symbols([Symbol(v0), Symbol(v1), Symbol(v2)] + s) == [v0, v1, v2] + Symbols(s)
  {
    SymbolsStep(v2, s);
    SymbolsStep(v1, [Symbol(v2)] + s);
    SymbolsStep(v0, [Symbol(v1)] + ([Symbol(v2)] + s));
    assert [Symbol(v0), Symbol(v1), Symbol(v2)] + s == [Symbol(v0)] + ([Symbol(v1)] + ([Symbol(v2)] + s));
  }

  /** Decoding undoes encoding for every buffer, whatever its length modulo 3. */
  lemma {:induction false} Base64RoundTrip(b: seq<Byte>)
    ensures FromBase64Url(ToBase64Url(b)) == b
  {
    if |b| == 0 {
    } else if |b| == 1 {
      LastOfOne(b[0]);
      assert b == [b[0]];
    } else if |b| == 2 {
      LastOfTwo(b[0], b[1]);
      assert b == [b[0], b[1]];
    } else {
      Base64RoundTrip(b[3..]);
      FullGroup(b[0], b[1], b[2], ToBase64Url(b[3..]));
      assert b == [b[0], b[1], b[2]] + b[3..];
    }
  }

  lemma LastOfOne(x: Byte)
    ensures FromBase64Url([Symbol(x / 4), Symbol(x % 4 * 16)]) == [x]
  {
    SymbolsStep(x % 4 * 16, "");
    SymbolsStep(x / 4, [Symbol(x % 4 * 16)]);
    assert [Symbol(x / 4), Symbol(x % 4 * 16)] == [Symbol(x / 4)] + [Symbol(x % 4 * 16)];
    assert [Symbol(x % 4 * 16)] + "" == [Symbol(x % 4 * 16)];
  }

  lemma LastOfTwo(x: Byte, y: Byte)
    ensures FromBase64Url([Symbol(x / 4), Symbol(x % 4 * 16 + y / 16), Symbol(y % 16 * 4)]) == [x, y]
  {
    var v0, v1, v2 := x / 4, x % 4 * 16 + y / 16, y % 16 * 4;
    SymbolsOf3(v0, v1, v2, "");
    assert [Symbol(v0), Symbol(v1), Symbol(v2)] + "" == [Symbol(v0), Symbol(v1), Symbol(v2)];
  }

  lemma FullGroup(x: Byte, y: Byte, z: Byte, s: string)
    ensures FromBase64Url([Symbol(x / 4), Symbol(x % 4 * 16 + y / 16), Symbol(y % 16 * 4 + z / 64), Symbol(z % 64)] + s)
         == [x, y, z] + FromBase64Url(s)
  {
    FourSymbols(x / 4, x % 4 * 16 + y / 16, y % 16 * 4 + z / 64, z % 64, s);
    FirstTwo(x, y);
    SecondTwo(x, y, z);
    LastTwo(y, z);
  }

  lemma FirstTwo(x: int, y: int)
    requires 0 <= x < 256 && 0 <= y < 256
    ensures x / 4 * 4 + (x % 4 * 16 + y / 16) / 16 == x
  {
  }

  lemma SecondTwo(x: int, y: int, z: int)
    requires 0 <= x < 256 && 0 <= y < 256 && 0 <= z < 256
    ensures (x % 4 * 16 + y / 16) % 16 * 16 + (y % 16 * 4 + z / 64) / 4 == y
  {
    assert (x % 4 * 16 + y / 16) % 16 == y / 16;
    assert (y % 16 * 4 + z / 64) / 4 == y % 16;
  }

  lemma LastTwo(y: int, z: int)
    requires 0 <= y < 256 && 0 <= z < 256
    ensures (y % 16 * 4 + z / 64) % 4 * 64 + z % 64 == z
  {
    assert (y % 16 * 4 + z / 64) % 4 == z / 64;
  }

  lemma FourSymbols(v0: Sextet, v1: Sextet, v2: Sextet, v3: Sextet, s: string)
    ensures FromBase64Url([Symbol(v0), Symbol(v1), Symbol(v2), Symbol(v3)] + s)
         == [Byte0(v0, v1), Byte1(v1, v2), Byte2(v2, v3)] + FromBase64Url(s)
  {
    SymbolsStep(v3, s);
    SymbolsOf3(v0, v1, v2, [Symbol(v3)] + s);
    assert [Symbol(v0), Symbol(v1), Symbol(v2), Symbol(v3)] + s == [Symbol(v0), Symbol(v1), Symbol(v2)] + ([Symbol(v3)] + s);
    var all := [v0, v1, v2] + ([v3] + Symbols(s));
    assert all[4..] == Symbols(s);
  }
}
