/** The decoders lose nothing and read nothing twice: superblocks and the
    fields they store correspond one to one. */
module QuantExact {
  import opened QuantLayout
  import opened QuantBits

  // --- Positions ----------------------------------------------------------

  lemma AffinePlace(e: nat)
    requires e < 256
    ensures (e / 64) * 2 + (e % 64) / 32 == e / 32 && (e % 64) % 32 == e % 32
    ensures (e % 64) / 32 != 0 <==> e % 64 >= 32
  {
  }

  lemma NibblePlace(i: nat)
    requires i < 128
    ensures var e := (i / 32) * 64 + i % 32;
      && e + 32 < 256 && e / 64 == (e + 32) / 64 == i / 32 && e % 32 == (e + 32) % 32 == i % 32
      && e % 64 < 32 <= (e + 32) % 64
  {
  }

  lemma BitPlace(l: nat, k: nat)
    requires l < 32 && k < 8
    ensures l + 32 * k < 256 && (l + 32 * k) / 32 == k && (l + 32 * k) % 32 == l
  {
  }

  lemma CentredPlace(e: nat)
    requires e < 256
    ensures var half, quarter, l := e / 128, (e % 128) / 32, (e % 128) % 32;
      && l == e % 32 && half * 8 + l / 16 + quarter * 2 == e / 16 && (quarter >= 2 <==> e % 128 >= 64)
      && (if quarter == 0 || quarter == 2 then half * 64 + l else half * 64 + l + 32) == half * 64 + e % 64
  {
  }

  lemma LowerPlace(i: nat)
    requires i < 128
    ensures var e := (i / 64) * 128 + i % 64;
      && e + 64 < 256 && e / 128 == (e + 64) / 128 == i / 64 && e % 64 == (e + 64) % 64 == i % 64
      && e % 128 < 64 <= (e + 64) % 128
  {
  }

  lemma UpperPlace(i: nat, quarter: nat)
    requires i < 64 && quarter < 4
    ensures var e := (i / 32) * 128 + i % 32 + 32 * quarter;
      && e < 256 && e / 128 == i / 32 && e % 32 == i % 32 && (e % 128) / 32 == quarter
  {
  }

  // --- What it means for fields to be those of a block --------------------

  /** Code of element `e` of an affine block. */
  predicate AffineCode(kind: Kind, block: seq<byte>, e: nat, code: byte)
    requires !kind.Q6K? && |block| == kind.Bytes() && e < 256
  {
    var q := if kind.Q4K? then 16 else 48;
    && code & 15 == Nibble(block[q + (e / 64) * 32 + e % 32], e % 64 >= 32)
    && (if kind.Q4K? then code < 16
        else code < 32 && Fifth(code) == (block[16 + e % 32] >> (e / 32)) & 1)
  }

  ghost predicate AffineHolds(kind: Kind, block: seq<byte>, f: Fields)
    requires !kind.Q6K? && |block| == kind.Bytes()
  {
    && f.d == ReadU16(block, 0) && f.dmin == ReadU16(block, 2)
    && |f.scales| == |f.mins| == 8 && |f.codes| == 256
    && (forall j :: 0 <= j < 8 ==> (f.scales[j], f.mins[j]) == ScaleMin(j, block[4..16]))
    && (forall e :: 0 <= e < 256 ==> AffineCode(kind, block, e, f.codes[e]))
  }

  /** Code of element `e` of a Q6_K block. */
  predicate CentredCode(block: seq<byte>, e: nat, code: byte)
    requires |block| == 210 && e < 256
  {
    && code < 64
    && code & 15 == Nibble(block[(e / 128) * 64 + e % 64], e % 128 >= 64)
    && code >> 4 == (block[128 + (e / 128) * 32 + e % 32] >> (((e % 128) / 32) * 2)) & 3
  }

  ghost predicate CentredHolds(block: seq<byte>, f: Fields)
    requires |block| == 210
  {
    && f.d == ReadU16(block, 208) && f.dmin == 0 && |f.scales| == 16 && f.mins == [] && |f.codes| == 256
    && (forall j :: 0 <= j < 16 ==> f.scales[j] == block[192 + j])
    && (forall e :: 0 <= e < 256 ==> CentredCode(block, e, f.codes[e]))
  }

  ghost predicate Holds(kind: Kind, block: seq<byte>, f: Fields)
    requires |block| == kind.Bytes()
  {
    if kind.Q6K? then CentredHolds(block, f) else AffineHolds(kind, block, f)
  }

  // --- The decoders find those fields -------------------------------------

  lemma FiveBits(low: byte, bit: byte)
    requires low < 16 && bit <= 1
    ensures (low | (bit << 4)) & 15 == low && Fifth(low | (bit << 4)) == bit && (low | (bit << 4)) < 32
  {
  }

  lemma SixBits(low: byte, high: byte)
    requires low < 16 && high < 4
    ensures (low | (high << 4)) & 15 == low && (low | (high << 4)) >> 4 == high && (low | (high << 4)) < 64
  {
  }

  lemma NibbleIsSmall(x: byte, high: bool)
    ensures Nibble(x, high) < 16 && Nibble(x, high) & 15 == Nibble(x, high)
  {
  }

  lemma Masked(x: byte)
    ensures x & 1 <= 1 && x & 3 < 4
  {
  }

  lemma Q4KFinds(block: seq<byte>, e: nat)
    requires |block| == 144 && e < 256
    ensures var t := DecodeQ4K(block, e);
      && t == Affine(ReadU16(block, 0), ReadU16(block, 2), t.scale, t.min, t.code)
      && (t.scale, t.min) == ScaleMin(e / 32, block[4..16]) && AffineCode(Q4K, block, e, t.code)
  {
    AffinePlace(e);
    NibbleIsSmall(block[16 + (e / 64) * 32 + e % 32], e % 64 >= 32);
  }

  lemma Q5KFinds(block: seq<byte>, e: nat)
    requires |block| == 176 && e < 256
    ensures var t := DecodeQ5K(block, e);
      && t == Affine(ReadU16(block, 0), ReadU16(block, 2), t.scale, t.min, t.code)
      && (t.scale, t.min) == ScaleMin(e / 32, block[4..16]) && AffineCode(Q5K, block, e, t.code)
  {
    AffinePlace(e);
    var x, high := block[48 + (e / 64) * 32 + e % 32], block[16 + e % 32] >> (e / 32);
    NibbleIsSmall(x, e % 64 >= 32);
    Masked(high);
    FiveBits(Nibble(x, e % 64 >= 32), high & 1);
  }

  lemma Q6KFinds(block: seq<byte>, e: nat)
    requires |block| == 210 && e < 256
    ensures var t := DecodeQ6K(block, e);
      t == Centred(ReadU16(block, 208), block[192 + e / 16], t.code) && CentredCode(block, e, t.code)
  {
    CentredPlace(e);
    var x, high := block[(e / 128) * 64 + e % 64], block[128 + (e / 128) * 32 + e % 32] >> (((e % 128) / 32) * 2);
    NibbleIsSmall(x, e % 128 >= 64);
    Masked(high);
    SixBits(Nibble(x, e % 128 >= 64), high & 3);
  }

  lemma AffineFinds(kind: Kind, block: seq<byte>, e: nat)
    requires !kind.Q6K? && |block| == kind.Bytes() && e < 256
    ensures var t := Decode(kind, block, e);
      && t == Affine(ReadU16(block, 0), ReadU16(block, 2), t.scale, t.min, t.code)
      && (t.scale, t.min) == ScaleMin(e / 32, block[4..16]) && AffineCode(kind, block, e, t.code)
  {
    if kind.Q4K? {
      Q4KFinds(block, e);
    } else {
      Q5KFinds(block, e);
    }
  }

  lemma WordsFound(kind: Kind, block: seq<byte>)
    requires !kind.Q6K? && |block| == kind.Bytes()
    ensures Unpack(kind, block).d == ReadU16(block, 0) && Unpack(kind, block).dmin == ReadU16(block, 2)
  {
    AffineFinds(kind, block, 0);
  }

  lemma ScalesFound(kind: Kind, block: seq<byte>, j: nat)
    requires !kind.Q6K? && |block| == kind.Bytes() && j < 8
    ensures (Unpack(kind, block).scales[j], Unpack(kind, block).mins[j]) == ScaleMin(j, block[4..16])
  {
    AffineFinds(kind, block, 32 * j);
    assert (32 * j) / 32 == j;
  }

  lemma AffineUnpacks(kind: Kind, block: seq<byte>)
    requires !kind.Q6K? && |block| == kind.Bytes()
    ensures AffineHolds(kind, block, Unpack(kind, block))
  {
    WordsFound(kind, block);
    forall j | 0 <= j < 8
      ensures (Unpack(kind, block).scales[j], Unpack(kind, block).mins[j]) == ScaleMin(j, block[4..16])
    {
      ScalesFound(kind, block, j);
    }
    forall e | 0 <= e < 256
      ensures AffineCode(kind, block, e, Unpack(kind, block).codes[e])
    {
      AffineFinds(kind, block, e);
    }
  }

  lemma CentredUnpacks(block: seq<byte>)
    requires |block| == 210
    ensures CentredHolds(block, Unpack(Q6K, block))
  {
    forall e | 0 <= e < 256
      ensures var t := DecodeQ6K(block, e);
        t == Centred(ReadU16(block, 208), block[192 + e / 16], t.code) && CentredCode(block, e, t.code)
    {
      Q6KFinds(block, e);
    }
  }

  lemma Unpacks(kind: Kind, block: seq<byte>)
    requires |block| == kind.Bytes()
    ensures Holds(kind, block, Unpack(kind, block))
  {
    if kind.Q6K? {
      CentredUnpacks(block);
    } else {
      AffineUnpacks(kind, block);
    }
  }

  // --- Packing undoes them ------------------------------------------------

  lemma ScaleByteKept(f: Fields, s: seq<byte>, i: nat)
    requires |f.scales| == |f.mins| == 8 && |s| == 12 && i < 12
    requires forall j :: 0 <= j < 8 ==> (f.scales[j], f.mins[j]) == ScaleMin(j, s)
    ensures ScaleByte(f, i) == s[i]
  {
    var j := i % 4;
    assert (f.scales[j], f.mins[j]) == ScaleMin(j, s);
    assert (f.scales[j + 4], f.mins[j + 4]) == ScaleMin(j + 4, s);
    JoinedScales(s[j], s[j + 4], s[j + 8]);
  }

  lemma NibbleByteKept(low: byte, high: byte, x: byte)
    requires low & 15 == Nibble(x, false) && high & 15 == Nibble(x, true)
    ensures (low & 15) | ((high & 15) << 4) == x
  {
    JoinedNibbles(x);
    NibbleIsSmall(x, true);
  }

  lemma AffineNibble(kind: Kind, block: seq<byte>, f: Fields, i: nat, high: bool)
    requires !kind.Q6K? && |block| == kind.Bytes() && AffineHolds(kind, block, f) && i < 128
    ensures (i / 32) * 64 + i % 32 + 32 < 256
    ensures f.codes[(i / 32) * 64 + i % 32 + (if high then 32 else 0)] & 15
         == Nibble(block[(if kind.Q4K? then 16 else 48) + i], high)
  {
    var e := (i / 32) * 64 + i % 32 + (if high then 32 else 0);
    NibblePlace(i);
    assert AffineCode(kind, block, e, f.codes[e]);
  }

  lemma AffineNibbles(kind: Kind, block: seq<byte>, f: Fields, i: nat)
    requires !kind.Q6K? && |block| == kind.Bytes() && AffineHolds(kind, block, f) && i < 128
    ensures NibbleByte(f, i) == block[(if kind.Q4K? then 16 else 48) + i]
  {
    AffineNibble(kind, block, f, i, false);
    AffineNibble(kind, block, f, i, true);
    NibbleByteIs(f, i, block[(if kind.Q4K? then 16 else 48) + i]);
  }

  lemma NibbleByteIs(f: Fields, i: nat, x: byte)
    requires |f.codes| == 256 && i < 128 && (i / 32) * 64 + i % 32 + 32 < 256
    requires f.codes[(i / 32) * 64 + i % 32] & 15 == Nibble(x, false)
    requires f.codes[(i / 32) * 64 + i % 32 + 32] & 15 == Nibble(x, true)
    ensures NibbleByte(f, i) == x
  {
    var e := (i / 32) * 64 + i % 32;
    NibbleByteKept(f.codes[e], f.codes[e + 32], x);
  }

  lemma FifthBits(block: seq<byte>, f: Fields, l: nat, k: nat)
    requires |block| == 176 && AffineHolds(Q5K, block, f) && l < 32 && k < 8
    ensures Fifth(f.codes[l + 32 * k]) == (block[16 + l] >> k) & 1
  {
    BitPlace(l, k);
    assert AffineCode(Q5K, block, l + 32 * k, f.codes[l + 32 * k]);
  }

  lemma FifthsJoin(c: seq<byte>, l: nat, x: byte)
    requires |c| == 256 && l < 32
    requires Fifth(c[l]) == (x >> 0) & 1 && Fifth(c[l + 32]) == (x >> 1) & 1
    requires Fifth(c[l + 64]) == (x >> 2) & 1 && Fifth(c[l + 96]) == (x >> 3) & 1
    requires Fifth(c[l + 128]) == (x >> 4) & 1 && Fifth(c[l + 160]) == (x >> 5) & 1
    requires Fifth(c[l + 192]) == (x >> 6) & 1 && Fifth(c[l + 224]) == (x >> 7) & 1
    ensures Eight(Fifth(c[l]), Fifth(c[l + 32]), Fifth(c[l + 64]), Fifth(c[l + 96]),
                  Fifth(c[l + 128]), Fifth(c[l + 160]), Fifth(c[l + 192]), Fifth(c[l + 224])) == x
  {
    JoinedBits(x);
  }

  lemma HighByteKept(block: seq<byte>, f: Fields, l: nat)
    requires |block| == 176 && AffineHolds(Q5K, block, f) && l < 32
    ensures HighByte(f, l) == block[16 + l]
  {
    FifthBits(block, f, l, 0);
    FifthBits(block, f, l, 1);
    FifthBits(block, f, l, 2);
    FifthBits(block, f, l, 3);
    FifthBits(block, f, l, 4);
    FifthBits(block, f, l, 5);
    FifthBits(block, f, l, 6);
    FifthBits(block, f, l, 7);
    FifthsJoin(f.codes, l, block[16 + l]);
  }

  lemma LowBits(block: seq<byte>, f: Fields, e: nat)
    requires |block| == 210 && CentredHolds(block, f) && e < 256
    ensures f.codes[e] & 15 == Nibble(block[(e / 128) * 64 + e % 64], e % 128 >= 64)
  {
    assert CentredCode(block, e, f.codes[e]);
  }

  lemma LowerNibble(block: seq<byte>, f: Fields, i: nat, high: bool)
    requires |block| == 210 && CentredHolds(block, f) && i < 128
    ensures (i / 64) * 128 + i % 64 + 64 < 256
    ensures f.codes[(i / 64) * 128 + i % 64 + (if high then 64 else 0)] & 15 == Nibble(block[i], high)
  {
    LowerPlace(i);
    LowBits(block, f, (i / 64) * 128 + i % 64 + (if high then 64 else 0));
  }

  lemma LowerByteKept(block: seq<byte>, f: Fields, i: nat)
    requires |block| == 210 && CentredHolds(block, f) && i < 128
    ensures LowerByte(f, i) == block[i]
  {
    LowerNibble(block, f, i, false);
    LowerNibble(block, f, i, true);
    var e := (i / 64) * 128 + i % 64;
    NibbleByteKept(f.codes[e], f.codes[e + 64], block[i]);
  }

  lemma UpperBits(block: seq<byte>, f: Fields, i: nat, quarter: nat)
    requires |block| == 210 && CentredHolds(block, f) && i < 64 && quarter < 4
    ensures f.codes[(i / 32) * 128 + i % 32 + 32 * quarter] >> 4 == (block[128 + i] >> (quarter * 2)) & 3
  {
    var e := (i / 32) * 128 + i % 32 + 32 * quarter;
    UpperPlace(i, quarter);
    assert CentredCode(block, e, f.codes[e]);
  }

  lemma UpperByteKept(block: seq<byte>, f: Fields, i: nat)
    requires |block| == 210 && CentredHolds(block, f) && i < 64
    ensures UpperByte(f, i) == block[128 + i]
  {
    UpperBits(block, f, i, 0);
    UpperBits(block, f, i, 1);
    UpperBits(block, f, i, 2);
    UpperBits(block, f, i, 3);
    JoinedPairs(block[128 + i]);
  }

  lemma WordKept(block: seq<byte>, at: nat, w: bv16)
    requires at + 1 < |block| && w == ReadU16(block, at)
    ensures (w & 255) as byte == block[at] && (w >> 8) as byte == block[at + 1]
  {
    JoinedWord(block[at], block[at + 1]);
  }

  lemma FactorsKept(block: seq<byte>, f: Fields, i: nat)
    requires |block| >= 4 && f.d == ReadU16(block, 0) && f.dmin == ReadU16(block, 2) && i < 4
    ensures FactorByte(f, i) == block[i]
  {
    WordKept(block, 0, f.d);
    WordKept(block, 2, f.dmin);
  }

  lemma HeaderKept(kind: Kind, block: seq<byte>, f: Fields, i: nat)
    requires !kind.Q6K? && |block| == kind.Bytes() && AffineHolds(kind, block, f) && i < 16
    ensures PackedByte(kind, f, i) == block[i]
  {
    if i < 4 {
      FactorsKept(block, f, i);
    } else {
      ScaleByteKept(f, block[4..16], i - 4);
    }
  }

  lemma CodesKept(kind: Kind, block: seq<byte>, f: Fields, i: nat)
    requires !kind.Q6K? && |block| == kind.Bytes() && AffineHolds(kind, block, f) && 16 <= i < kind.Bytes()
    ensures PackedByte(kind, f, i) == block[i]
  {
    if kind.Q4K? {
      AffineNibbles(kind, block, f, i - 16);
    } else if i < 48 {
      HighByteKept(block, f, i - 16);
    } else {
      AffineNibbles(kind, block, f, i - 48);
    }
  }

  lemma AffineByteKept(kind: Kind, block: seq<byte>, f: Fields, i: nat)
    requires !kind.Q6K? && |block| == kind.Bytes() && AffineHolds(kind, block, f) && i < kind.Bytes()
    ensures PackedByte(kind, f, i) == block[i]
  {
    if i < 16 {
      HeaderKept(kind, block, f, i);
    } else {
      CodesKept(kind, block, f, i);
    }
  }

  lemma CentredByteKept(block: seq<byte>, f: Fields, i: nat)
    requires |block| == 210 && CentredHolds(block, f) && i < 210
    ensures PackedByte(Q6K, f, i) == block[i]
  {
    if i < 128 {
      LowerByteKept(block, f, i);
    } else if i < 192 {
      UpperByteKept(block, f, i - 128);
    } else if i >= 208 {
      WordKept(block, 208, f.d);
    }
  }

  /** The fields of a block determine every byte of it. */
  lemma HoldsPacks(kind: Kind, block: seq<byte>, f: Fields)
    requires |block| == kind.Bytes() && Holds(kind, block, f)
    ensures Pack(kind, f) == block
  {
    forall i | 0 <= i < kind.Bytes()
      ensures PackedByte(kind, f, i) == block[i]
    {
      if kind.Q6K? {
        CentredByteKept(block, f, i);
      } else {
        AffineByteKept(kind, block, f, i);
      }
    }
  }

  /** Every stored bit can be read back from what the decoder sees. */
  lemma PackUnpack(kind: Kind, block: seq<byte>)
    requires |block| == kind.Bytes()
    ensures Pack(kind, Unpack(kind, block)) == block
  {
    Unpacks(kind, block);
    HoldsPacks(kind, block, Unpack(kind, block));
  }

  // --- And they undo packing ----------------------------------------------

  lemma PackedWord(block: seq<byte>, at: nat, w: bv16)
    requires at + 1 < |block| && block[at] == (w & 255) as byte && block[at + 1] == (w >> 8) as byte
    ensures ReadU16(block, at) == w
  {
    SplitWord(w);
  }

  lemma PackedScales(f: Fields, s: seq<byte>, j: nat)
    requires Below(f.scales, 8, 64) && Below(f.mins, 8, 64) && |s| == 12 && j < 8
    requires forall i :: 0 <= i < 12 ==> s[i] == ScaleByte(f, i)
    ensures ScaleMin(j, s) == (f.scales[j], f.mins[j])
  {
    var k := j % 4;
    SplitScales(f.scales[k], f.mins[k], f.scales[k + 4], f.mins[k + 4]);
  }

  lemma PackedNibble(low: byte, high: byte)
    ensures Nibble((low & 15) | ((high & 15) << 4), false) == low & 15
    ensures Nibble((low & 15) | ((high & 15) << 4), true) == high & 15
  {
    SplitNibbles(low, high);
  }

  lemma FifthIsBit(code: byte)
    ensures Fifth(code) <= 1
  {
  }

  /** Bit `k` of the byte of high bits. */
  lemma PackedFifth(f: Fields, l: nat, k: nat)
    requires |f.codes| == 256 && l < 32 && k < 8
    ensures (HighByte(f, l) >> k) & 1 == Fifth(f.codes[l + 32 * k])
  {
    var c := f.codes;
    FifthIsBit(c[l]);
    FifthIsBit(c[l + 32]);
    FifthIsBit(c[l + 64]);
    FifthIsBit(c[l + 96]);
    FifthIsBit(c[l + 128]);
    FifthIsBit(c[l + 160]);
    FifthIsBit(c[l + 192]);
    FifthIsBit(c[l + 224]);
    SplitBits(Fifth(c[l]), Fifth(c[l + 32]), Fifth(c[l + 64]), Fifth(c[l + 96]),
              Fifth(c[l + 128]), Fifth(c[l + 160]), Fifth(c[l + 192]), Fifth(c[l + 224]));
  }

  lemma SmallShift(code: byte)
    requires code < 64
    ensures code >> 4 < 4
  {
  }

  lemma PackedUpper(f: Fields, i: nat, quarter: nat)
    requires Below(f.codes, 256, 64) && i < 64 && quarter < 4
    ensures (UpperByte(f, i) >> (quarter * 2)) & 3 == f.codes[(i / 32) * 128 + i % 32 + 32 * quarter] >> 4
  {
    var e, c := (i / 32) * 128 + i % 32, f.codes;
    SmallShift(c[e]);
    SmallShift(c[e + 32]);
    SmallShift(c[e + 64]);
    SmallShift(c[e + 96]);
    SplitPairs(c[e] >> 4, c[e + 32] >> 4, c[e + 64] >> 4, c[e + 96] >> 4);
  }

  lemma NibbleHome(e: nat)
    requires e < 256
    ensures var i := (e / 64) * 32 + e % 32; var first := (i / 32) * 64 + i % 32;
      i < 128 && first + 32 < 256 && e == if e % 64 < 32 then first else first + 32
  {
  }

  lemma LowerHome(e: nat)
    requires e < 256
    ensures var i := (e / 128) * 64 + e % 64; var first := (i / 64) * 128 + i % 64;
      i < 128 && first + 64 < 256 && e == if e % 128 < 64 then first else first + 64
  {
  }

  lemma UpperHome(e: nat)
    requires e < 256
    ensures var u := (e / 128) * 32 + e % 32;
      u < 64 && (u / 32) * 128 + u % 32 + 32 * ((e % 128) / 32) == e
  {
  }

  lemma NibbleCode(f: Fields, e: nat)
    requires |f.codes| == 256 && e < 256
    ensures (e / 64) * 32 + e % 32 < 128
    ensures Nibble(NibbleByte(f, (e / 64) * 32 + e % 32), e % 64 >= 32) == f.codes[e] & 15
  {
    var i := (e / 64) * 32 + e % 32;
    var first := (i / 32) * 64 + i % 32;
    NibbleHome(e);
    PackedNibble(f.codes[first], f.codes[first + 32]);
  }

  lemma FifthCode(f: Fields, e: nat)
    requires |f.codes| == 256 && e < 256
    ensures (HighByte(f, e % 32) >> (e / 32)) & 1 == Fifth(f.codes[e])
  {
    PackedFifth(f, e % 32, e / 32);
    assert e % 32 + 32 * (e / 32) == e;
  }

  lemma LowerCode(f: Fields, e: nat)
    requires |f.codes| == 256 && e < 256
    ensures (e / 128) * 64 + e % 64 < 128
    ensures Nibble(LowerByte(f, (e / 128) * 64 + e % 64), e % 128 >= 64) == f.codes[e] & 15
  {
    var i := (e / 128) * 64 + e % 64;
    var first := (i / 64) * 128 + i % 64;
    LowerHome(e);
    PackedNibble(f.codes[first], f.codes[first + 64]);
  }

  lemma UpperCode(f: Fields, e: nat)
    requires Below(f.codes, 256, 64) && e < 256
    ensures (e / 128) * 32 + e % 32 < 64
    ensures (UpperByte(f, (e / 128) * 32 + e % 32) >> (((e % 128) / 32) * 2)) & 3 == f.codes[e] >> 4
  {
    UpperHome(e);
    PackedUpper(f, (e / 128) * 32 + e % 32, (e % 128) / 32);
  }

  lemma PackedLow(kind: Kind, f: Fields, e: nat)
    requires !kind.Q6K? && Storable(kind, f) && e < 256
    ensures f.codes[e] & 15
         == Nibble(Pack(kind, f)[(if kind.Q4K? then 16 else 48) + (e / 64) * 32 + e % 32], e % 64 >= 32)
  {
    NibbleCode(f, e);
  }

  lemma PackedHigh(f: Fields, e: nat)
    requires Storable(Q5K, f) && e < 256
    ensures Fifth(f.codes[e]) == (Pack(Q5K, f)[16 + e % 32] >> (e / 32)) & 1
  {
    FifthCode(f, e);
  }

  lemma PackedAffineCode(kind: Kind, f: Fields, e: nat)
    requires !kind.Q6K? && Storable(kind, f) && e < 256
    ensures AffineCode(kind, Pack(kind, f), e, f.codes[e])
  {
    PackedLow(kind, f, e);
    if kind.Q5K? {
      PackedHigh(f, e);
    }
  }

  lemma PackedCentredCode(f: Fields, e: nat)
    requires Storable(Q6K, f) && e < 256
    ensures CentredCode(Pack(Q6K, f), e, f.codes[e])
  {
    LowerCode(f, e);
    UpperCode(f, e);
  }

  lemma PackedAffineScales(kind: Kind, f: Fields, j: nat)
    requires !kind.Q6K? && Storable(kind, f) && j < 8
    ensures (f.scales[j], f.mins[j]) == ScaleMin(j, Pack(kind, f)[4..16])
  {
    var s := Pack(kind, f)[4..16];
    forall i | 0 <= i < 12
      ensures s[i] == ScaleByte(f, i)
    {
      assert s[i] == PackedByte(kind, f, i + 4);
    }
    PackedScales(f, s, j);
  }

  lemma PackedFactor(kind: Kind, f: Fields, i: nat)
    requires !kind.Q6K? && Storable(kind, f) && i < 4
    ensures Pack(kind, f)[i] == FactorByte(f, i)
  {
  }

  lemma PackedAffineWords(kind: Kind, f: Fields, block: seq<byte>)
    requires |block| >= 4 && forall i :: 0 <= i < 4 ==> block[i] == FactorByte(f, i)
    ensures f.d == ReadU16(block, 0) && f.dmin == ReadU16(block, 2)
  {
    PackedWord(block, 0, f.d);
    PackedWord(block, 2, f.dmin);
  }

  lemma PackedAffine(kind: Kind, f: Fields)
    requires !kind.Q6K? && Storable(kind, f)
    ensures AffineHolds(kind, Pack(kind, f), f)
  {
    forall i | 0 <= i < 4
      ensures Pack(kind, f)[i] == FactorByte(f, i)
    {
      PackedFactor(kind, f, i);
    }
    PackedAffineWords(kind, f, Pack(kind, f));
    forall j | 0 <= j < 8
      ensures (f.scales[j], f.mins[j]) == ScaleMin(j, Pack(kind, f)[4..16])
    {
      PackedAffineScales(kind, f, j);
    }
    forall e | 0 <= e < 256
      ensures AffineCode(kind, Pack(kind, f), e, f.codes[e])
    {
      PackedAffineCode(kind, f, e);
    }
  }

  lemma PackedCentred(f: Fields)
    requires Storable(Q6K, f)
    ensures CentredHolds(Pack(Q6K, f), f)
  {
    var block := Pack(Q6K, f);
    PackedWord(block, 208, f.d);
    forall e | 0 <= e < 256
      ensures CentredCode(block, e, f.codes[e])
    {
      PackedCentredCode(f, e);
    }
  }

  lemma SameFive(a: byte, b: byte)
    requires a < 32 && b < 32 && a & 15 == b & 15 && Fifth(a) == Fifth(b)
    ensures a == b
  {
  }

  lemma SameFour(a: byte, b: byte)
    requires a < 16 && b < 16 && a & 15 == b & 15
    ensures a == b
  {
  }

  /** A block has one set of fields. */
  lemma HoldsOnce(kind: Kind, block: seq<byte>, f: Fields, g: Fields)
    requires |block| == kind.Bytes() && Holds(kind, block, f) && Holds(kind, block, g)
    ensures f == g
  {
    forall e | 0 <= e < 256
      ensures f.codes[e] == g.codes[e]
    {
      match kind
      case Q4K =>
        assert AffineCode(kind, block, e, f.codes[e]) && AffineCode(kind, block, e, g.codes[e]);
        SameFour(f.codes[e], g.codes[e]);
      case Q5K =>
        assert AffineCode(kind, block, e, f.codes[e]) && AffineCode(kind, block, e, g.codes[e]);
        SameFive(f.codes[e], g.codes[e]);
      case Q6K =>
        assert CentredCode(block, e, f.codes[e]) && CentredCode(block, e, g.codes[e]);
        Rejoined(f.codes[e]);
        Rejoined(g.codes[e]);
    }
    if kind.Q6K? {
      forall j | 0 <= j < 16
        ensures f.scales[j] == g.scales[j]
      {
        assert f.scales[j] == block[192 + j];
      }
    } else {
      forall j | 0 <= j < 8
        ensures f.scales[j] == g.scales[j] && f.mins[j] == g.mins[j]
      {
        assert (f.scales[j], f.mins[j]) == ScaleMin(j, block[4..16]);
        assert (g.scales[j], g.mins[j]) == ScaleMin(j, block[4..16]);
      }
    }
    assert f.scales == g.scales && f.mins == g.mins && f.codes == g.codes;
  }

  /** The decoder gives back exactly what was packed: no bit serves two fields. */
  lemma UnpackPack(kind: Kind, f: Fields)
    requires Storable(kind, f)
    ensures Unpack(kind, Pack(kind, f)) == f
  {
    var block := Pack(kind, f);
    if kind.Q6K? {
      PackedCentred(f);
    } else {
      PackedAffine(kind, f);
    }
    Unpacks(kind, block);
    HoldsOnce(kind, block, f, Unpack(kind, block));
  }

  lemma ScaleMinIsSmall(s: seq<byte>, j: nat)
    requires |s| == 12 && j < 8
    ensures ScaleMin(j, s).0 < 64 && ScaleMin(j, s).1 < 64
  {
    var k := j % 4;
    JoinedScales(s[k], s[k + 4], s[k + 8]);
  }

  /** Whatever bytes a block holds, its fields fit the layout. */
  lemma UnpackStorable(kind: Kind, block: seq<byte>)
    requires |block| == kind.Bytes()
    ensures Storable(kind, Unpack(kind, block))
  {
    Unpacks(kind, block);
    var f := Unpack(kind, block);
    if kind.Q6K? {
      assert forall e :: 0 <= e < 256 ==> CentredCode(block, e, f.codes[e]);
    } else {
      assert forall e :: 0 <= e < 256 ==> AffineCode(kind, block, e, f.codes[e]);
      forall j | 0 <= j < 8
        ensures f.scales[j] < 64 && f.mins[j] < 64
      {
        ScaleMinIsSmall(block[4..16], j);
        assert (f.scales[j], f.mins[j]) == ScaleMin(j, block[4..16]);
      }
    }
  }

  // --- Tensors of many superblocks ----------------------------------------

  function Superblock(kind: Kind, data: seq<byte>, b: nat, count: nat): (block: seq<byte>)
    requires |data| == count * kind.Bytes() && b < count
    ensures |block| == kind.Bytes()
  {
    BlockFits(kind.Bytes(), b, count);
    data[b * kind.Bytes()..b * kind.Bytes() + kind.Bytes()]
  }

  lemma BlockFits(size: nat, b: nat, count: nat)
    requires b < count
    ensures b * size + size <= count * size
  {
    assert (b + 1) * size <= count * size;
    assert (b + 1) * size == b * size + size;
  }

  /** Element `i` of a tensor of `count` superblocks. */
  function Element(kind: Kind, data: seq<byte>, i: nat, count: nat): Term
    requires |data| == count * kind.Bytes() && i < count * 256
  {
    Decode(kind, Superblock(kind, data, i / 256, count), i % 256)
  }

  lemma BlocksAgree(kind: Kind, a: seq<byte>, b: seq<byte>)
    requires |a| == |b| == kind.Bytes()
    requires forall e :: 0 <= e < 256 ==> Decode(kind, a, e) == Decode(kind, b, e)
    ensures a == b
  {
    assert Unpack(kind, a) == Unpack(kind, b);
    PackUnpack(kind, a);
    PackUnpack(kind, b);
  }

  lemma ElementOf(b: nat, e: nat, count: nat)
    requires b < count && e < 256
    ensures b * 256 + e < count * 256 && (b * 256 + e) / 256 == b && (b * 256 + e) % 256 == e
  {
  }

  lemma ByteOf(p: nat, size: nat, count: nat)
    requires 0 < size && p < count * size
    ensures p / size < count && p == (p / size) * size + p % size && p % size < size
  {
    if p / size >= count {
      BlockFits(size, count, p / size + 1);
    }
  }

  lemma SuperblocksAgree(kind: Kind, s: seq<byte>, t: seq<byte>, count: nat, b: nat)
    requires |s| == |t| == count * kind.Bytes() && b < count
    requires forall i :: 0 <= i < count * 256 ==> Element(kind, s, i, count) == Element(kind, t, i, count)
    ensures Superblock(kind, s, b, count) == Superblock(kind, t, b, count)
  {
    forall e | 0 <= e < 256
      ensures Decode(kind, Superblock(kind, s, b, count), e) == Decode(kind, Superblock(kind, t, b, count), e)
    {
      ElementOf(b, e, count);
      assert Element(kind, s, b * 256 + e, count) == Element(kind, t, b * 256 + e, count);
    }
    BlocksAgree(kind, Superblock(kind, s, b, count), Superblock(kind, t, b, count));
  }

  /** Two tensors whose elements decode to the same terms are the same bytes. */
  lemma ElementsDetermineBytes(kind: Kind, s: seq<byte>, t: seq<byte>, count: nat)
    requires |s| == |t| == count * kind.Bytes()
    requires forall i :: 0 <= i < count * 256 ==> Element(kind, s, i, count) == Element(kind, t, i, count)
    ensures s == t
  {
    forall p | 0 <= p < |s|
      ensures s[p] == t[p]
    {
      var size := kind.Bytes();
      ByteOf(p, size, count);
      SuperblocksAgree(kind, s, t, count, p / size);
      assert s[p] == Superblock(kind, s, p / size, count)[p % size];
      assert t[p] == Superblock(kind, t, p / size, count)[p % size];
    }
  }
}
