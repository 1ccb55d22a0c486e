/** The macros star_x and imix_col of src/aes_prng.c: multiplication by x on four packed bytes, and
    InvMixColumns on a packed column. */
module AesImixCol {
  import opened AesSpec
  import opened AesWords

  function StarX(x: bv32): bv32 { ((x & 0x7f7f7f7f) << 1) ^ (((x & 0x80808080) >> 7) * 0x1b) }

  function Xor2(a: bv32, b: bv32): bv32 { a ^ b }
  function Xor3(a: bv32, b: bv32, c: bv32): bv32 { a ^ b ^ c }
  function Xor4(a: bv32, b: bv32, c: bv32, d: bv32): bv32 { a ^ b ^ c ^ d }

  function Ror8(a: bv32): bv32 { (a >> 8) | (a << 24) }
  function Ror16(a: bv32): bv32 { (a >> 16) | (a << 16) }
  function Ror24(a: bv32): bv32 { (a >> 24) | (a << 8) }

  /** y in imix_col, from x, u, v, w. */
  function ImixTail(x: bv32, u: bv32, v: bv32, w: bv32): bv32 {
    var t := Xor2(w, x);
    Xor4(Xor3(u, v, w), Ror8(Xor2(u, t)), Ror16(Xor2(v, t)), Ror24(t))
  }

  function ImixCol(x: Word): Word {
    var u := StarX(x.bits);
    var v := StarX(u);
    var w := StarX(v);
    Word(ImixTail(x.bits, u, v, w))
  }

  /** star_x multiplies each packed byte on its own: nothing crosses a byte boundary. */
  lemma StarXOnBytes(x: bv32)
    ensures Byte0(StarX(x)) == Xtime(Byte0(x)) && Byte1(StarX(x)) == Xtime(Byte1(x))
    ensures Byte2(StarX(x)) == Xtime(Byte2(x)) && Byte3(StarX(x)) == Xtime(Byte3(x))
  {}

  // ---------- Byte i of the word operations ----------

  function Sum2(a: bv8, b: bv8): bv8 { a ^ b }
  function Sum3(a: bv8, b: bv8, c: bv8): bv8 { a ^ b ^ c }

  lemma RorByte0(a: bv32)
    ensures Byte0(Ror8(a)) == Byte1(a) && Byte0(Ror16(a)) == Byte2(a) && Byte0(Ror24(a)) == Byte3(a)
  {}

  lemma Xor2Byte0(a: bv32, b: bv32)
    ensures Byte0(Xor2(a, b)) == Sum2(Byte0(a), Byte0(b))
  {}

  lemma Xor3Byte0(a: bv32, b: bv32, c: bv32)
    ensures Byte0(Xor3(a, b, c)) == Sum3(Byte0(a), Byte0(b), Byte0(c))
  {}

  lemma Xor4Byte0(a: bv32, b: bv32, c: bv32, d: bv32)
    ensures Byte0(Xor4(a, b, c, d)) == XorOfFour(Byte0(a), Byte0(b), Byte0(c), Byte0(d))
  {}

  lemma RorByte1(a: bv32)
    ensures Byte1(Ror8(a)) == Byte2(a) && Byte1(Ror16(a)) == Byte3(a) && Byte1(Ror24(a)) == Byte0(a)
  {}

  lemma Xor2Byte1(a: bv32, b: bv32)
    ensures Byte1(Xor2(a, b)) == Sum2(Byte1(a), Byte1(b))
  {}

  lemma Xor3Byte1(a: bv32, b: bv32, c: bv32)
    ensures Byte1(Xor3(a, b, c)) == Sum3(Byte1(a), Byte1(b), Byte1(c))
  {}

  lemma Xor4Byte1(a: bv32, b: bv32, c: bv32, d: bv32)
    ensures Byte1(Xor4(a, b, c, d)) == XorOfFour(Byte1(a), Byte1(b), Byte1(c), Byte1(d))
  {}

  lemma RorByte2(a: bv32)
    ensures Byte2(Ror8(a)) == Byte3(a) && Byte2(Ror16(a)) == Byte0(a) && Byte2(Ror24(a)) == Byte1(a)
  {}

  lemma Xor2Byte2(a: bv32, b: bv32)
    ensures Byte2(Xor2(a, b)) == Sum2(Byte2(a), Byte2(b))
  {}

  lemma Xor3Byte2(a: bv32, b: bv32, c: bv32)
    ensures Byte2(Xor3(a, b, c)) == Sum3(Byte2(a), Byte2(b), Byte2(c))
  {}

  lemma Xor4Byte2(a: bv32, b: bv32, c: bv32, d: bv32)
    ensures Byte2(Xor4(a, b, c, d)) == XorOfFour(Byte2(a), Byte2(b), Byte2(c), Byte2(d))
  {}

  lemma RorByte3(a: bv32)
    ensures Byte3(Ror8(a)) == Byte0(a) && Byte3(Ror16(a)) == Byte1(a) && Byte3(Ror24(a)) == Byte2(a)
  {}

  lemma Xor2Byte3(a: bv32, b: bv32)
    ensures Byte3(Xor2(a, b)) == Sum2(Byte3(a), Byte3(b))
  {}

  lemma Xor3Byte3(a: bv32, b: bv32, c: bv32)
    ensures Byte3(Xor3(a, b, c)) == Sum3(Byte3(a), Byte3(b), Byte3(c))
  {}

  lemma Xor4Byte3(a: bv32, b: bv32, c: bv32, d: bv32)
    ensures Byte3(Xor4(a, b, c, d)) == XorOfFour(Byte3(a), Byte3(b), Byte3(c), Byte3(d))
  {}

  // ---------- The byte sums are rows of InvMixColumns ----------

  /** The row sum of InvMixColumns, given the multiples that occur in it. */
  function InvSum(a1: bv8, a2: bv8, a3: bv8, b: bv8, b1: bv8, b3: bv8, c: bv8, c2: bv8, c3: bv8, d: bv8, d3: bv8): bv8 {
    (a3 ^ a2 ^ a1) ^ (b3 ^ b1 ^ b) ^ (c3 ^ c2 ^ c) ^ (d3 ^ d)
  }

  lemma FlatSumIsInvSum(a1: bv8, a2: bv8, a3: bv8, b: bv8, b1: bv8, b3: bv8, c: bv8, c2: bv8, c3: bv8, d: bv8, d3: bv8)
    ensures XorOfFour(a1 ^ a2 ^ a3, b1 ^ (b3 ^ b), c2 ^ (c3 ^ c), d3 ^ d) == InvSum(a1, a2, a3, b, b1, b3, c, c2, c3, d, d3)
  {}

  lemma NestedSum(a: bv8, b: bv8, c: bv8)
    ensures Sum2(a, Sum2(b, c)) == a ^ (b ^ c)
  {}

  lemma NestedSumIsInvSum(a1: bv8, a2: bv8, a3: bv8, b: bv8, b1: bv8, b3: bv8, c: bv8, c2: bv8, c3: bv8, d: bv8,
                      d3: bv8)
    ensures XorOfFour(Sum3(a1, a2, a3), Sum2(b1, Sum2(b3, b)), Sum2(c2, Sum2(c3, c)), Sum2(d3, d))
         == InvSum(a1, a2, a3, b, b1, b3, c, c2, c3, d, d3)
  {
    hide XorOfFour, InvSum;
    NestedSum(b1, b3, b);
    NestedSum(c2, c3, c);
    FlatSumIsInvSum(a1, a2, a3, b, b1, b3, c, c2, c3, d, d3);
  }

  lemma InvSumSpelledOut(a: bv8, b: bv8, c: bv8, d: bv8)
    ensures
      var a1 := (a << 1) ^ (a >> 7) ^ ((a >> 7) << 1) ^ ((a >> 7) << 3) ^ ((a >> 7) << 4);
      var b1 := (b << 1) ^ (b >> 7) ^ ((b >> 7) << 1) ^ ((b >> 7) << 3) ^ ((b >> 7) << 4);
      var c1 := (c << 1) ^ (c >> 7) ^ ((c >> 7) << 1) ^ ((c >> 7) << 3) ^ ((c >> 7) << 4);
      var d1 := (d << 1) ^ (d >> 7) ^ ((d >> 7) << 1) ^ ((d >> 7) << 3) ^ ((d >> 7) << 4);
      var a2 := (a1 << 1) ^ (a1 >> 7) ^ ((a1 >> 7) << 1) ^ ((a1 >> 7) << 3) ^ ((a1 >> 7) << 4);
      var b2 := (b1 << 1) ^ (b1 >> 7) ^ ((b1 >> 7) << 1) ^ ((b1 >> 7) << 3) ^ ((b1 >> 7) << 4);
      var c2 := (c1 << 1) ^ (c1 >> 7) ^ ((c1 >> 7) << 1) ^ ((c1 >> 7) << 3) ^ ((c1 >> 7) << 4);
      var d2 := (d1 << 1) ^ (d1 >> 7) ^ ((d1 >> 7) << 1) ^ ((d1 >> 7) << 3) ^ ((d1 >> 7) << 4);
      var a3 := (a2 << 1) ^ (a2 >> 7) ^ ((a2 >> 7) << 1) ^ ((a2 >> 7) << 3) ^ ((a2 >> 7) << 4);
      var b3 := (b2 << 1) ^ (b2 >> 7) ^ ((b2 >> 7) << 1) ^ ((b2 >> 7) << 3) ^ ((b2 >> 7) << 4);
      var c3 := (c2 << 1) ^ (c2 >> 7) ^ ((c2 >> 7) << 1) ^ ((c2 >> 7) << 3) ^ ((c2 >> 7) << 4);
      var d3 := (d2 << 1) ^ (d2 >> 7) ^ ((d2 >> 7) << 1) ^ ((d2 >> 7) << 3) ^ ((d2 >> 7) << 4);
      InvSum(a1, a2, a3, b, b1, b3, c, c2, c3, d, d3) == InvMixByte(a, b, c, d)
  {}

  lemma Multiples(b: bv8)
    ensures
      var b1 := (b << 1) ^ (b >> 7) ^ ((b >> 7) << 1) ^ ((b >> 7) << 3) ^ ((b >> 7) << 4);
      var b2 := (b1 << 1) ^ (b1 >> 7) ^ ((b1 >> 7) << 1) ^ ((b1 >> 7) << 3) ^ ((b1 >> 7) << 4);
      var b3 := (b2 << 1) ^ (b2 >> 7) ^ ((b2 >> 7) << 1) ^ ((b2 >> 7) << 3) ^ ((b2 >> 7) << 4);
      Xtime(b) == b1 && Xtime(Xtime(b)) == b2 && Xtime(Xtime(Xtime(b))) == b3
  {}

  lemma InvSumIsInvMixByte(a: bv8, b: bv8, c: bv8, d: bv8)
    ensures InvSum(Xtime(a), Xtime(Xtime(a)), Xtime(Xtime(Xtime(a))), b, Xtime(b), Xtime(Xtime(Xtime(b))),
                   c, Xtime(Xtime(c)), Xtime(Xtime(Xtime(c))), d, Xtime(Xtime(Xtime(d)))) == InvMixByte(a, b, c, d)
  {
    hide Xtime, InvSum, InvMixByte;
    Multiples(a);
    Multiples(b);
    Multiples(c);
    Multiples(d);
    InvSumSpelledOut(a, b, c, d);
  }

  lemma ImixByte0(x: bv32, u: bv32, v: bv32, w: bv32)
    requires u == StarX(x) && v == StarX(u) && w == StarX(v)
    ensures Byte0(ImixTail(x, u, v, w)) == InvMixByte(Byte0(x), Byte1(x), Byte2(x), Byte3(x))
  {
    hide Byte0, Byte1, Byte2, Byte3, StarX, Xtime, Xor2, Xor3, Xor4, Ror8, Ror16, Ror24, Sum2, Sum3, XorOfFour, InvSum,
         InvMixByte;
    var t := Xor2(w, x);
    Xor4Byte0(Xor3(u, v, w), Ror8(Xor2(u, t)), Ror16(Xor2(v, t)), Ror24(t));
    Xor3Byte0(u, v, w);
    RorByte0(Xor2(u, t));
    RorByte0(Xor2(v, t));
    RorByte0(t);
    Xor2Byte1(u, t);
    Xor2Byte1(w, x);
    Xor2Byte2(v, t);
    Xor2Byte2(w, x);
    Xor2Byte3(w, x);
    NestedSumIsInvSum(Byte0(u), Byte0(v), Byte0(w), Byte1(x), Byte1(u), Byte1(w),
                      Byte2(x), Byte2(v), Byte2(w), Byte3(x), Byte3(w));
    StarXOnBytes(x);
    StarXOnBytes(u);
    StarXOnBytes(v);
    InvSumIsInvMixByte(Byte0(x), Byte1(x), Byte2(x), Byte3(x));
  }

  lemma ImixByte1(x: bv32, u: bv32, v: bv32, w: bv32)
    requires u == StarX(x) && v == StarX(u) && w == StarX(v)
    ensures Byte1(ImixTail(x, u, v, w)) == InvMixByte(Byte1(x), Byte2(x), Byte3(x), Byte0(x))
  {
    hide Byte0, Byte1, Byte2, Byte3, StarX, Xtime, Xor2, Xor3, Xor4, Ror8, Ror16, Ror24, Sum2, Sum3, XorOfFour, InvSum,
         InvMixByte;
    var t := Xor2(w, x);
    Xor4Byte1(Xor3(u, v, w), Ror8(Xor2(u, t)), Ror16(Xor2(v, t)), Ror24(t));
    Xor3Byte1(u, v, w);
    RorByte1(Xor2(u, t));
    RorByte1(Xor2(v, t));
    RorByte1(t);
    Xor2Byte2(u, t);
    Xor2Byte2(w, x);
    Xor2Byte3(v, t);
    Xor2Byte3(w, x);
    Xor2Byte0(w, x);
    NestedSumIsInvSum(Byte1(u), Byte1(v), Byte1(w), Byte2(x), Byte2(u), Byte2(w),
                      Byte3(x), Byte3(v), Byte3(w), Byte0(x), Byte0(w));
    StarXOnBytes(x);
    StarXOnBytes(u);
    StarXOnBytes(v);
    InvSumIsInvMixByte(Byte1(x), Byte2(x), Byte3(x), Byte0(x));
  }

  lemma ImixByte2(x: bv32, u: bv32, v: bv32, w: bv32)
    requires u == StarX(x) && v == StarX(u) && w == StarX(v)
    ensures Byte2(ImixTail(x, u, v, w)) == InvMixByte(Byte2(x), Byte3(x), Byte0(x), Byte1(x))
  {
    hide Byte0, Byte1, Byte2, Byte3, StarX, Xtime, Xor2, Xor3, Xor4, Ror8, Ror16, Ror24, Sum2, Sum3, XorOfFour, InvSum,
         InvMixByte;
    var t := Xor2(w, x);
    Xor4Byte2(Xor3(u, v, w), Ror8(Xor2(u, t)), Ror16(Xor2(v, t)), Ror24(t));
    Xor3Byte2(u, v, w);
    RorByte2(Xor2(u, t));
    RorByte2(Xor2(v, t));
    RorByte2(t);
    Xor2Byte3(u, t);
    Xor2Byte3(w, x);
    Xor2Byte0(v, t);
    Xor2Byte0(w, x);
    Xor2Byte1(w, x);
    NestedSumIsInvSum(Byte2(u), Byte2(v), Byte2(w), Byte3(x), Byte3(u), Byte3(w),
                      Byte0(x), Byte0(v), Byte0(w), Byte1(x), Byte1(w));
    StarXOnBytes(x);
    StarXOnBytes(u);
    StarXOnBytes(v);
    InvSumIsInvMixByte(Byte2(x), Byte3(x), Byte0(x), Byte1(x));
  }

  lemma ImixByte3(x: bv32, u: bv32, v: bv32, w: bv32)
    requires u == StarX(x) && v == StarX(u) && w == StarX(v)
    ensures Byte3(ImixTail(x, u, v, w)) == InvMixByte(Byte3(x), Byte0(x), Byte1(x), Byte2(x))
  {
    hide Byte0, Byte1, Byte2, Byte3, StarX, Xtime, Xor2, Xor3, Xor4, Ror8, Ror16, Ror24, Sum2, Sum3, XorOfFour, InvSum,
         InvMixByte;
    var t := Xor2(w, x);
    Xor4Byte3(Xor3(u, v, w), Ror8(Xor2(u, t)), Ror16(Xor2(v, t)), Ror24(t));
    Xor3Byte3(u, v, w);
    RorByte3(Xor2(u, t));
    RorByte3(Xor2(v, t));
    RorByte3(t);
    Xor2Byte0(u, t);
    Xor2Byte0(w, x);
    Xor2Byte1(v, t);
    Xor2Byte1(w, x);
    Xor2Byte2(w, x);
    NestedSumIsInvSum(Byte3(u), Byte3(v), Byte3(w), Byte0(x), Byte0(u), Byte0(w),
                      Byte1(x), Byte1(v), Byte1(w), Byte2(x), Byte2(w));
    StarXOnBytes(x);
    StarXOnBytes(u);
    StarXOnBytes(v);
    InvSumIsInvMixByte(Byte3(x), Byte0(x), Byte1(x), Byte2(x));
  }

  lemma ImixColIsInvMixColumn(word: Word)
    ensures Unpack(ImixCol(word)) == InvMixColumn(Unpack(word))
  {
    hide Byte0, Byte1, Byte2, Byte3, StarX, ImixTail, InvMixByte;
    var x := word.bits;
    var u := StarX(x);
    var v := StarX(u);
    var w := StarX(v);
    ImixByte0(x, u, v, w);
    ImixByte1(x, u, v, w);
    ImixByte2(x, u, v, w);
    ImixByte3(x, u, v, w);
  }
}
