/** The K-quant superblocks: where the decoders find the codes, the scales and
    the half-precision factors of 256 elements. */
module QuantLayout {

  type byte = bv8

  /** What a decoder multiplies together for one element: Q4_K and Q5_K use
      `d * scale * code - dmin * min`, Q6_K uses `d * scale * (code - 32)` with
      the scale read as a signed byte. The factors are raw half floats. */
  datatype Term =
    | Affine(d: bv16, dmin: bv16, scale: byte, min: byte, code: byte)
    | Centred(d: bv16, scale: byte, code: byte)

  function ReadU16(block: seq<byte>, at: nat): bv16
    requires at + 1 < |block|
  {
    ((block[at + 1] as bv16) << 8) | (block[at] as bv16)
  }

  /** Scale and minimum `j` of the eight six-bit pairs packed in twelve bytes. */
  function ScaleMin(j: nat, scales: seq<byte>): (byte, byte)
    requires j < 8 && |scales| == 12
  {
    if j < 4 then
      (scales[j] & 63, scales[j + 4] & 63)
    else
      ((scales[j + 4] & 15) | (((scales[j - 4] >> 6) & 3) << 4),
       ((scales[j + 4] >> 4) & 15) | (((scales[j] >> 6) & 3) << 4))
  }

  function Nibble(packed: byte, high: bool): byte {
    if high then packed >> 4 else packed & 15
  }

  function DecodeQ4K(block: seq<byte>, element: nat): Term
    requires |block| == 144 && element < 256
  {
    var scales, qs := block[4..16], block[16..144];
    var group, inGroup := element / 64, element % 64;
    var sub, l := inGroup / 32, inGroup % 32;
    var pair := ScaleMin(group * 2 + sub, scales);
    Affine(ReadU16(block, 0), ReadU16(block, 2), pair.0, pair.1, Nibble(qs[group * 32 + l], sub != 0))
  }

  function DecodeQ5K(block: seq<byte>, element: nat): Term
    requires |block| == 176 && element < 256
  {
    var scales, qh, qs := block[4..16], block[16..48], block[48..176];
    var group, inGroup := element / 64, element % 64;
    var sub, l := inGroup / 32, inGroup % 32;
    var pair := ScaleMin(group * 2 + sub, scales);
    var low := Nibble(qs[group * 32 + l], sub != 0);
    var high := (qh[l] >> (element / 32)) & 1;
    Affine(ReadU16(block, 0), ReadU16(block, 2), pair.0, pair.1, low | (high << 4))
  }

  function DecodeQ6K(block: seq<byte>, element: nat): Term
    requires |block| == 210 && element < 256
  {
    var half, inHalf := element / 128, element % 128;
    var l, quarter := inHalf % 32, inHalf / 32;
    var lower := block[if quarter == 0 || quarter == 2 then half * 64 + l else half * 64 + l + 32];
    var low := Nibble(lower, quarter >= 2);
    var high := (block[128 + half * 32 + l] >> (quarter * 2)) & 3;
    Centred(ReadU16(block, 208), block[192 + (half * 8 + l / 16 + quarter * 2)], low | (high << 4))
  }

  datatype Kind = Q4K | Q5K | Q6K {
    function Bytes(): nat {
      match this
      case Q4K => 144
      case Q5K => 176
      case Q6K => 210
    }
  }

  function Decode(kind: Kind, block: seq<byte>, element: nat): Term
    requires |block| == kind.Bytes() && element < 256
  {
    match kind
    case Q4K => DecodeQ4K(block, element)
    case Q5K => DecodeQ5K(block, element)
    case Q6K => DecodeQ6K(block, element)
  }

  // --- The stored fields and their packing --------------------------------

  /** Everything a superblock stores, unpacked. */
  datatype Fields = Fields(d: bv16, dmin: bv16, scales: seq<byte>, mins: seq<byte>, codes: seq<byte>)

  ghost predicate Below(s: seq<byte>, count: nat, limit: byte) {
    |s| == count && forall i :: 0 <= i < count ==> s[i] < limit
  }

  /** Fields that fit the layout. */
  ghost predicate Storable(kind: Kind, f: Fields) {
    match kind
    case Q4K => Below(f.scales, 8, 64) && Below(f.mins, 8, 64) && Below(f.codes, 256, 16)
    case Q5K => Below(f.scales, 8, 64) && Below(f.mins, 8, 64) && Below(f.codes, 256, 32)
    case Q6K => f.dmin == 0 && |f.scales| == 16 && f.mins == [] && Below(f.codes, 256, 64)
  }

  /** The fields a decoder sees, element by element. */
  function Unpack(kind: Kind, block: seq<byte>): Fields
    requires |block| == kind.Bytes()
  {
    var codes := seq(256, e requires 0 <= e < 256 => Decode(kind, block, e).code);
    if kind.Q6K? then
      Fields(Decode(kind, block, 0).d, 0,
             seq(16, j requires 0 <= j < 16 => Decode(kind, block, 16 * j).scale), [], codes)
    else
      Fields(Decode(kind, block, 0).d, Decode(kind, block, 0).dmin,
             seq(8, j requires 0 <= j < 8 => Decode(kind, block, 32 * j).scale),
             seq(8, j requires 0 <= j < 8 => Decode(kind, block, 32 * j).min), codes)
  }

  /** Byte `i` of the twelve that hold eight scales and eight minima. */
  function ScaleByte(f: Fields, i: nat): byte
    requires |f.scales| == |f.mins| == 8 && i < 12
  {
    if i < 4 then f.scales[i] | ((f.scales[i + 4] >> 4) << 6)
    else if i < 8 then f.mins[i - 4] | ((f.mins[i] >> 4) << 6)
    else (f.scales[i - 4] & 15) | ((f.mins[i - 4] & 15) << 4)
  }

  function FactorByte(f: Fields, i: nat): byte
    requires i < 4
  {
    if i == 0 then (f.d & 255) as byte
    else if i == 1 then (f.d >> 8) as byte
    else if i == 2 then (f.dmin & 255) as byte
    else (f.dmin >> 8) as byte
  }

  /** The two codes of nibble byte `i` are 32 elements apart. */
  function NibbleByte(f: Fields, i: nat): byte
    requires |f.codes| == 256 && i < 128
  {
    var e := (i / 32) * 64 + i % 32;
    (f.codes[e] & 15) | ((f.codes[e + 32] & 15) << 4)
  }

  function Fifth(code: byte): byte {
    (code >> 4) & 1
  }

  function Eight(b0: byte, b1: byte, b2: byte, b3: byte, b4: byte, b5: byte, b6: byte, b7: byte): byte {
    b0 | (b1 << 1) | (b2 << 2) | (b3 << 3) | (b4 << 4) | (b5 << 5) | (b6 << 6) | (b7 << 7)
  }

  /** The fifth bits of eight codes, 32 elements apart. */
  function HighByte(f: Fields, l: nat): byte
    requires |f.codes| == 256 && l < 32
  {
    Eight(Fifth(f.codes[l]), Fifth(f.codes[l + 32]), Fifth(f.codes[l + 64]), Fifth(f.codes[l + 96]),
          Fifth(f.codes[l + 128]), Fifth(f.codes[l + 160]), Fifth(f.codes[l + 192]), Fifth(f.codes[l + 224]))
  }

  /** Low nibbles of the first and third, or second and fourth, quarter of a half. */
  function LowerByte(f: Fields, i: nat): byte
    requires |f.codes| == 256 && i < 128
  {
    var e := (i / 64) * 128 + i % 64;
    (f.codes[e] & 15) | ((f.codes[e + 64] & 15) << 4)
  }

  /** Upper two bits of four codes, one in each quarter of a half. */
  function UpperByte(f: Fields, i: nat): byte
    requires |f.codes| == 256 && i < 64
  {
    var e := (i / 32) * 128 + i % 32;
    (f.codes[e] >> 4) | ((f.codes[e + 32] >> 4) << 2) | ((f.codes[e + 64] >> 4) << 4)
    | ((f.codes[e + 96] >> 4) << 6)
  }

  function PackedByte(kind: Kind, f: Fields, i: nat): byte
    requires |f.codes| == 256 && i < kind.Bytes()
    requires if kind.Q6K? then |f.scales| == 16 else |f.scales| == |f.mins| == 8
  {
    match kind
    case Q4K =>
      if i < 4 then FactorByte(f, i) else if i < 16 then ScaleByte(f, i - 4) else NibbleByte(f, i - 16)
    case Q5K =>
      if i < 4 then FactorByte(f, i) else if i < 16 then ScaleByte(f, i - 4)
      else if i < 48 then HighByte(f, i - 16) else NibbleByte(f, i - 48)
    case Q6K =>
      if i < 128 then LowerByte(f, i) else if i < 192 then UpperByte(f, i - 128)
      else if i < 208 then f.scales[i - 192] else FactorByte(f, i - 208)
  }

  function Pack(kind: Kind, f: Fields): (block: seq<byte>)
    requires |f.codes| == 256
    requires if kind.Q6K? then |f.scales| == 16 else |f.scales| == |f.mins| == 8
    ensures |block| == kind.Bytes()
  {
    seq(kind.Bytes(), i requires 0 <= i < kind.Bytes() => PackedByte(kind, f, i))
  }
}
