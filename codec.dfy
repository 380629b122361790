/**
 * Byte-level encoding of the RadSens register interface: 16-bit values
 * travel as a big-endian pair of single-byte registers, on/off settings as
 * a single register holding 1 or 0, and the sensor identifies itself by a
 * fixed chip id.
 */
module Codec {

  /** The content of one register: what a single-byte bus read returns. */
  newtype byte = x: int | 0 <= x < 256

  datatype Option<T> = None | Some(value: T)

  /** Number of distinct values a big-endian register pair can hold. */
  const WordModulus: int := 0x1_0000

  /** The id the sensor reports in register 0x00. */
  const ExpectedChipId: byte := 0x7D

  /**
   * `(x >> 8) & 0xFF` on an unbounded integer. The shift floors and the mask
   * keeps the low eight bits of the two's-complement form, which is exactly
   * `/ 256` followed by `% 256` for Dafny's (Euclidean) operators, negative
   * `x` included.
   */
  function HighByte(x: int): byte
  {
    ((x / 256) % 256) as byte
  }

  /** `x & 0xFF` on an unbounded integer. */
  function LowByte(x: int): byte
  {
    (x % 256) as byte
  }

  /** `(high << 8) + low`: the value of a big-endian register pair. */
  function JoinWord(high: byte, low: byte): (w: int)
    ensures 0 <= w < WordModulus
  {
    high as int * 256 + low as int
  }

  /** The byte written for an on/off setting: 1 for on, 0 for off. */
  function EncodeFlag(on: bool): (v: byte)
    ensures v <= 1
  {
    if on then 1 else 0
  }

  /** A flag register reads as on exactly when it holds 1. */
  function DecodeFlag(v: byte): bool
  {
    v == 1
  }

  /**
   * The verdict of the sensor's initialisation, given the result of reading
   * the chip id register (None when the bus transaction failed).
   */
  function InitVerdict(read: Option<byte>): (ok: bool)
    ensures ok <==> read == Some(ExpectedChipId)
  {
    match read
    case None => false
    case Some(id) => id == ExpectedChipId
  }

  /** Quotient and remainder by 256 are determined by any exact decomposition. */
  lemma DivMod256(x: int, q: int, r: int)
    requires 0 <= r < 256 && x == 256 * q + r
    ensures x / 256 == q && x % 256 == r
  {
  }

  /** Quotient and remainder by 2^16 are determined by any exact decomposition. */
  lemma DivModWord(x: int, q: int, r: int)
    requires 0 <= r < WordModulus && x == WordModulus * q + r
    ensures x / WordModulus == q && x % WordModulus == r
  {
  }

  /**
   * Encode then decode: splitting any integer into its two bytes and joining
   * them again yields the integer modulo 2^16.
   */
  lemma SplitJoin(x: int)
    ensures JoinWord(HighByte(x), LowByte(x)) == x % WordModulus
  {
    var q, r := x / 256, x % 256;
    var q1, r1 := q / 256, q % 256;
    assert x == 256 * q + r;
    assert q == 256 * q1 + r1;
    assert x == WordModulus * q1 + (256 * r1 + r);
    DivModWord(x, q1, 256 * r1 + r);
  }

  /** Every value of a register pair, 0 to 65535, survives a split and a join. */
  lemma SplitJoinWord(x: int)
    requires 0 <= x < WordModulus
    ensures JoinWord(HighByte(x), LowByte(x)) == x
  {
    SplitJoin(x);
    DivModWord(x, 0, x);
  }

  /** Decode then encode: splitting a joined pair gives back both bytes. */
  lemma JoinSplit(high: byte, low: byte)
    ensures HighByte(JoinWord(high, low)) == high
    ensures LowByte(JoinWord(high, low)) == low
  {
    var w := JoinWord(high, low);
    DivMod256(w, high as int, low as int);
    DivMod256(high as int, 0, high as int);
  }

  /** Distinct byte pairs denote distinct values. */
  lemma JoinWordInjective(h1: byte, l1: byte, h2: byte, l2: byte)
    requires JoinWord(h1, l1) == JoinWord(h2, l2)
    ensures h1 == h2 && l1 == l2
  {
    JoinSplit(h1, l1);
    JoinSplit(h2, l2);
  }

  /** A flag written and read back is the flag that was written. */
  lemma FlagRoundTrip(on: bool)
    ensures DecodeFlag(EncodeFlag(on)) == on
  {
  }

  /** Only the byte 1 reads as on: any other value, 2 included, reads as off. */
  lemma DecodeFlagOnlyOne(v: byte)
    ensures DecodeFlag(v) <==> v == 1
    ensures v != 1 ==> DecodeFlag(v) == DecodeFlag(EncodeFlag(false))
  {
  }

  /** A failed chip-id read and a wrong chip id give the same verdict. */
  lemma InitConflatesFaultAndMismatch(id: byte)
    requires id != ExpectedChipId
    ensures InitVerdict(None) == InitVerdict(Some(id)) == false
  {
  }
}
