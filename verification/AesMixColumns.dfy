/** MixColumns and InvMixColumns are inverse maps on columns. The two row lemmas spell the inner map
    out, so that each is an identity between linear bit-vector terms. */
module AesMixColumns {
  import opened AesSpec

  lemma XtimeIsConditional(b: bv8)
    ensures Xtime(b) == if b & 0x80 != 0 then (b << 1) ^ 0x1b else b << 1
  {}

  lemma InvMixOfMixRow(a: bv8, b: bv8, c: bv8, d: bv8)
    ensures
      var a1 := (a << 1) ^ (a >> 7) ^ ((a >> 7) << 1) ^ ((a >> 7) << 3) ^ ((a >> 7) << 4);
      var b1 := (b << 1) ^ (b >> 7) ^ ((b >> 7) << 1) ^ ((b >> 7) << 3) ^ ((b >> 7) << 4);
      var c1 := (c << 1) ^ (c >> 7) ^ ((c >> 7) << 1) ^ ((c >> 7) << 3) ^ ((c >> 7) << 4);
      var d1 := (d << 1) ^ (d >> 7) ^ ((d >> 7) << 1) ^ ((d >> 7) << 3) ^ ((d >> 7) << 4);
      InvMixByte(a1 ^ (b1 ^ b) ^ c ^ d, b1 ^ (c1 ^ c) ^ d ^ a, c1 ^ (d1 ^ d) ^ a ^ b, d1 ^ (a1 ^ a) ^ b ^ c) == a
  {}

  lemma MixOfInvMixRow(a: bv8, b: bv8, c: bv8, d: bv8)
    ensures
      var a1 := (a << 1) ^ (a >> 7) ^ ((a >> 7) << 1) ^ ((a >> 7) << 3) ^ ((a >> 7) << 4);
      var b1 := (b << 1) ^ (b >> 7) ^ ((b >> 7) << 1) ^ ((b >> 7) << 3) ^ ((b >> 7) << 4);
      var c1 := (c << 1) ^ (c >> 7) ^ ((c >> 7) << 1) ^ ((c >> 7) << 3) ^ ((c >> 7) << 4);
      var d1 := (d << 1) ^ (d >> 7) ^ ((d >> 7) << 1) ^ ((d >> 7) << 3) ^ ((d >> 7) << 4);
      var a2 := (a1 << 1) ^ (a1 >> 7) ^ ((a1 >> 7) << 1) ^ ((a1 >> 7) << 3) ^ ((a1 >> 7) << 4);
      var b2 := (b1 << 1) ^ (b1 >> 7) ^ ((b1 >> 7) << 1) ^ ((b1 >> 7) << 3) ^ ((b1 >> 7) << 4);
      var c2 := (c1 << 1) ^ (c1 >> 7) ^ ((c1 >> 7) << 1) ^ ((c1 >> 7) << 3) ^ ((c1 >> 7) << 4);
      var d2 := (d1 << 1) ^ (d1 >> 7) ^ ((d1 >> 7) << 1) ^ ((d1 >> 7) << 3) ^ ((d1 >> 7) << 4);
      var a3 := (a2 << 1) ^ (a2 >> 7) ^ ((a2 >> 7) << 1) ^ ((a2 >> 7) << 3) ^ ((a2 >> 7) << 4);
      var b3 := (b2 << 1) ^ (b2 >> 7) ^ ((b2 >> 7) << 1) ^ ((b2 >> 7) << 3) ^ ((b2 >> 7) << 4);
      var c3 := (c2 << 1) ^ (c2 >> 7) ^ ((c2 >> 7) << 1) ^ ((c2 >> 7) << 3) ^ ((c2 >> 7) << 4);
      var d3 := (d2 << 1) ^ (d2 >> 7) ^ ((d2 >> 7) << 1) ^ ((d2 >> 7) << 3) ^ ((d2 >> 7) << 4);
      MixByte((a3 ^ a2 ^ a1) ^ (b3 ^ b1 ^ b) ^ (c3 ^ c2 ^ c) ^ (d3 ^ d),
              (b3 ^ b2 ^ b1) ^ (c3 ^ c1 ^ c) ^ (d3 ^ d2 ^ d) ^ (a3 ^ a),
              (c3 ^ c2 ^ c1) ^ (d3 ^ d1 ^ d) ^ (a3 ^ a2 ^ a) ^ (b3 ^ b),
              (d3 ^ d2 ^ d1) ^ (a3 ^ a1 ^ a) ^ (b3 ^ b2 ^ b) ^ (c3 ^ c)) == a
  {}

  lemma InvMixOfMixByte(a: bv8, b: bv8, c: bv8, d: bv8)
    ensures InvMixByte(MixByte(a, b, c, d), MixByte(b, c, d, a), MixByte(c, d, a, b), MixByte(d, a, b, c)) == a
  {
    hide InvMixByte;
    InvMixOfMixRow(a, b, c, d);
  }

  lemma MixOfInvMixByte(a: bv8, b: bv8, c: bv8, d: bv8)
    ensures MixByte(InvMixByte(a, b, c, d), InvMixByte(b, c, d, a), InvMixByte(c, d, a, b), InvMixByte(d, a, b, c)) == a
  {
    hide MixByte;
    MixOfInvMixRow(a, b, c, d);
  }

  /** The two column maps undo each other, in both orders. */
  lemma MixColumnInverse(c: Column)
    ensures InvMixColumn(MixColumn(c)) == c
    ensures MixColumn(InvMixColumn(c)) == c
  {
    hide MixByte, InvMixByte;
    InvMixOfMixByte(c.b0, c.b1, c.b2, c.b3);
    InvMixOfMixByte(c.b1, c.b2, c.b3, c.b0);
    InvMixOfMixByte(c.b2, c.b3, c.b0, c.b1);
    InvMixOfMixByte(c.b3, c.b0, c.b1, c.b2);
    MixOfInvMixByte(c.b0, c.b1, c.b2, c.b3);
    MixOfInvMixByte(c.b1, c.b2, c.b3, c.b0);
    MixOfInvMixByte(c.b2, c.b3, c.b0, c.b1);
    MixOfInvMixByte(c.b3, c.b0, c.b1, c.b2);
  }
}
