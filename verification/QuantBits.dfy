/** Bit-vector facts about one packed byte each. */
module QuantBits {
  import opened QuantLayout

  lemma JoinedWord(lo: byte, hi: byte)
    ensures var w := ((hi as bv16) << 8) | (lo as bv16); (w & 255) as byte == lo && (w >> 8) as byte == hi
  {
  }

  lemma SplitWord(w: bv16)
    ensures ((((w >> 8) as byte) as bv16) << 8) | (((w & 255) as byte) as bv16) == w
  {
  }

  lemma JoinedNibbles(x: byte)
    ensures (x & 15) | (((x >> 4) & 15) << 4) == x
    ensures x & 15 < 16 && x >> 4 < 16
  {
  }

  lemma SplitNibbles(a: byte, b: byte)
    ensures ((a & 15) | ((b & 15) << 4)) & 15 == a & 15
    ensures ((a & 15) | ((b & 15) << 4)) >> 4 == b & 15
    ensures a < 16 ==> a & 15 == a
  {
  }

  lemma Rejoined(code: byte)
    ensures (code & 15) | ((code >> 4) << 4) == code
  {
  }

  /** Scale bytes `a`, `b`, `c` hold the pair `j` and the pair `j + 4`. */
  lemma JoinedScales(a: byte, b: byte, c: byte)
    ensures var sc, m := (c & 15) | (((a >> 6) & 3) << 4), ((c >> 4) & 15) | (((b >> 6) & 3) << 4);
      && (a & 63) | ((sc >> 4) << 6) == a
      && (b & 63) | ((m >> 4) << 6) == b
      && (sc & 15) | ((m & 15) << 4) == c
      && a & 63 < 64 && b & 63 < 64 && sc < 64 && m < 64
  {
  }

  lemma SplitScales(s0: byte, m0: byte, s4: byte, m4: byte)
    requires s0 < 64 && m0 < 64 && s4 < 64 && m4 < 64
    ensures var a, b, c := s0 | ((s4 >> 4) << 6), m0 | ((m4 >> 4) << 6), (s4 & 15) | ((m4 & 15) << 4);
      && a & 63 == s0 && b & 63 == m0
      && (c & 15) | (((a >> 6) & 3) << 4) == s4
      && ((c >> 4) & 15) | (((b >> 6) & 3) << 4) == m4
  {
  }

  lemma JoinedBits(x: byte)
    ensures Eight((x >> 0) & 1, (x >> 1) & 1, (x >> 2) & 1, (x >> 3) & 1,
                  (x >> 4) & 1, (x >> 5) & 1, (x >> 6) & 1, (x >> 7) & 1) == x
  {
  }

  lemma SplitBits(b0: byte, b1: byte, b2: byte, b3: byte, b4: byte, b5: byte, b6: byte, b7: byte)
    requires b0 <= 1 && b1 <= 1 && b2 <= 1 && b3 <= 1 && b4 <= 1 && b5 <= 1 && b6 <= 1 && b7 <= 1
    ensures var x := Eight(b0, b1, b2, b3, b4, b5, b6, b7);
      && (x >> 0) & 1 == b0 && (x >> 1) & 1 == b1 && (x >> 2) & 1 == b2 && (x >> 3) & 1 == b3
      && (x >> 4) & 1 == b4 && (x >> 5) & 1 == b5 && (x >> 6) & 1 == b6 && (x >> 7) & 1 == b7
  {
  }

  lemma JoinedPairs(x: byte)
    ensures ((x >> 0) & 3) | (((x >> 2) & 3) << 2) | (((x >> 4) & 3) << 4) | (((x >> 6) & 3) << 6) == x
    ensures (x >> 0) & 3 < 4 && (x >> 2) & 3 < 4 && (x >> 4) & 3 < 4 && (x >> 6) & 3 < 4
  {
  }

  lemma SplitPairs(a: byte, b: byte, c: byte, d: byte)
    requires a < 4 && b < 4 && c < 4 && d < 4
    ensures var x := a | (b << 2) | (c << 4) | (d << 6);
      && (x >> 0) & 3 == a && (x >> 2) & 3 == b && (x >> 4) & 3 == c && (x >> 6) & 3 == d
  {
  }
}
