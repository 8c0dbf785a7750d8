/**
 * Port derivation of the launcher (index.js:9-15): four random bytes are read
 * as an unsigned 32-bit little-endian integer, reduced modulo the size of the
 * requested range and offset by its minimum.
 */
module RandomPort {

  /** One byte of the buffer returned by the random source. */
  type Byte = b: int | 0 <= b < 256

  /** The lowest and highest port the launcher may choose (index.js:15). */
  const PortMin: int := 50000
  const PortMax: int := 60000

  /** 256 raised to the n-th power: the number of values n bytes can hold. */
  function Pow256(n: nat): (r: nat)
    ensures r >= 1
  {
    if n == 0 then 1 else 256 * Pow256(n - 1)
  }

  /** The unsigned integer whose little-endian bytes are `s` (least significant first). */
  function LittleEndian(s: seq<Byte>): (v: nat)
    ensures v < Pow256(|s|)
  {
    if s == [] then 0 else s[0] + 256 * LittleEndian(s[1..])
  }

  /** The `n` little-endian bytes of `v`; the inverse of LittleEndian. */
  function ToLittleEndian(v: nat, n: nat): (s: seq<Byte>)
    requires v < Pow256(n)
    ensures |s| == n
  {
    if n == 0 then [] else [v % 256] + ToLittleEndian(v / 256, n - 1)
  }

  lemma {:induction false} DecodeEncode(v: nat, n: nat)
    requires v < Pow256(n)
    ensures LittleEndian(ToLittleEndian(v, n)) == v
  {
    if n > 0 {
      DecodeEncode(v / 256, n - 1);
      assert ToLittleEndian(v, n)[1..] == ToLittleEndian(v / 256, n - 1);
    }
  }

  lemma {:induction false} EncodeDecode(s: seq<Byte>)
    ensures ToLittleEndian(LittleEndian(s), |s|) == s
  {
    if s != [] {
      var rest := LittleEndian(s[1..]);
      var v := LittleEndian(s);
      assert v == s[0] + 256 * rest;
      assert v % 256 == s[0] && v / 256 == rest;
      EncodeDecode(s[1..]);
    }
  }

  /** Buffer.readUInt32LE(0) on the four bytes drawn at index.js:11. */
  function ReadUInt32LE(b: seq<Byte>): (v: nat)
    requires |b| == 4
    ensures v == b[0] as int + 256 * b[1] as int + 65536 * b[2] as int + 16777216 * b[3] as int
    ensures v < 0x1_0000_0000
  {
    assert b[1..][1..][1..][1..] == [];
    assert LittleEndian(b[3..]) == b[3];
    assert LittleEndian(b[2..]) == b[2] as int + 256 * b[3] as int;
    assert LittleEndian(b[1..]) == b[1] as int + 256 * b[2] as int + 65536 * b[3] as int;
    LittleEndian(b)
  }

  /** Every 32-bit value is read from exactly one 4-byte draw. */
  lemma ReadUInt32LEBijective(v: nat, b: seq<Byte>)
    requires v < 0x1_0000_0000 && |b| == 4
    ensures |ToLittleEndian(v, 4)| == 4 && ReadUInt32LE(ToLittleEndian(v, 4)) == v
    ensures ReadUInt32LE(b) == v <==> b == ToLittleEndian(v, 4)
  {
    assert Pow256(4) == 0x1_0000_0000;
    DecodeEncode(v, 4);
    EncodeDecode(b);
  }

  /** A JavaScript number as far as this code can produce one: an integer or NaN. */
  datatype JsNumber = Finite(value: int) | NaN

  function Abs(x: int): (a: nat)
  {
    if x < 0 then -x else x
  }

  /**
   * JavaScript's `%` for a non-negative dividend: the remainder takes the sign
   * of the dividend, so it is the remainder modulo the divisor's magnitude.
   */
  function JsRemainder(a: nat, b: int): (r: nat)
    requires b != 0
    ensures r < Abs(b)
    ensures a < Abs(b) ==> r == a
    ensures exists q: nat :: a == q * Abs(b) + r
  {
    var q: nat := a / Abs(b);
    assert a == q * Abs(b) + a % Abs(b);
    a % Abs(b)
  }

  /**
   * getSecureRandomInt(min, max) for the 4-byte draw `draw` (index.js:9-13).
   * A zero range makes the remainder NaN, as in JavaScript.
   */
  function GetSecureRandomInt(min: int, max: int, draw: seq<Byte>): (r: JsNumber)
    requires |draw| == 4
    ensures r.NaN? <==> max - min + 1 == 0
    ensures min <= max ==> r.Finite? && min <= r.value <= max
    ensures r.Finite? ==> min <= r.value < min + Abs(max - min + 1)
  {
    var range := max - min + 1;
    var randomBytes := ReadUInt32LE(draw);
    if range == 0 then NaN else Finite(min + JsRemainder(randomBytes, range))
  }

  /** The value of PORT computed once at load (index.js:15). */
  function DerivePort(draw: seq<Byte>): (p: nat)
    requires |draw| == 4
    ensures PortMin <= p <= PortMax
  {
    GetSecureRandomInt(PortMin, PortMax, draw).value
  }

  /** Every port of the range is produced by some draw: no port is unreachable. */
  lemma {:induction false} EveryPortReachable(p: int)
    requires PortMin <= p <= PortMax
    ensures |ToLittleEndian(p - PortMin, 4)| == 4
    ensures DerivePort(ToLittleEndian(p - PortMin, 4)) == p
  {
    assert Pow256(4) == 0x1_0000_0000;
    ReadUInt32LEBijective(p - PortMin, ToLittleEndian(p - PortMin, 4));
  }
}
