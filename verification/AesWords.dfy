/** Packed 32-bit words, lookup tables and macros of src/aes_prng.c, each related to the column
    operation of FIPS 197 that it stands for. Byte 0 of a packed word is its least significant byte. */
module AesWords {
  import opened AesSpec

  /** get_byte(x, n) for n = 0..3. */
  function Byte0(x: bv32): bv8 { (x & 0xff) as bv8 }
  function Byte1(x: bv32): bv8 { ((x >> 8) & 0xff) as bv8 }
  function Byte2(x: bv32): bv8 { ((x >> 16) & 0xff) as bv8 }
  function Byte3(x: bv32): bv8 { ((x >> 24) & 0xff) as bv8 }

  /** A uint32_t that holds a column. */
  datatype Word = Word(bits: bv32)

  function Unpack(w: Word): Column { Column(Byte0(w.bits), Byte1(w.bits), Byte2(w.bits), Byte3(w.bits)) }

  /** The little-endian word with the given bytes. */
  function Pack(c: Column): Word {
    Word((c.b0 as bv32) | ((c.b1 as bv32) << 8) | ((c.b2 as bv32) << 16) | ((c.b3 as bv32) << 24))
  }

  lemma UnpackPack(c: Column)
    ensures Unpack(Pack(c)) == c
  {}

  lemma PackUnpack(w: Word)
    ensures Pack(Unpack(w)) == w
  {}

  function XorWords(x: Word, y: Word): Word { Word(x.bits ^ y.bits) }

  lemma UnpackXor(x: Word, y: Word)
    ensures Unpack(XorWords(x, y)) == Xor(Unpack(x), Unpack(y))
  {}

  /** aes_ror32. */
  function Ror(word: Word, shift: bv6): Word
    requires 0 < shift < 32
  {
    Word((word.bits >> shift) | (word.bits << (32 - shift)))
  }

  lemma RorByOne(w: Word)
    ensures Unpack(Ror(w, 8)) == RotWord(Unpack(w))
  {}

  lemma RorTwice(w: Word)
    ensures Ror(w, 16) == Ror(Ror(w, 8), 8)
    ensures Ror(w, 24) == Ror(Ror(w, 16), 8)
  {}

  lemma RorRotates(w: Word)
    ensures Unpack(Ror(w, 8)) == RotWord(Unpack(w))
    ensures Unpack(Ror(w, 16)) == RotWord(RotWord(Unpack(w)))
    ensures Unpack(Ror(w, 24)) == RotWord(RotWord(RotWord(Unpack(w))))
  {
    hide Ror, Unpack;
    RorTwice(w);
    RorByOne(w);
    RorByOne(Ror(w, 8));
    RorByOne(Ror(w, 16));
  }

  // ---------- Lookup tables ----------

  // The entry of crypto_fl_tab[r] for an S-box value s has s in byte r.

  function FlEntry0(s: bv8): bv32 { s as bv32 }

  function FlEntry1(s: bv8): bv32 { (s as bv32) << 8 }

  function FlEntry2(s: bv8): bv32 { (s as bv32) << 16 }

  function FlEntry3(s: bv8): bv32 { (s as bv32) << 24 }

  // The entry of crypto_ft_tab[r] for an S-box value s has bytes {02}s, s, s, {03}s from byte r on.

  function FtEntry0(s: bv8): bv32 {
    var s2 := (s << 1) ^ (s >> 7) ^ ((s >> 7) << 1) ^ ((s >> 7) << 3) ^ ((s >> 7) << 4);
    var w1, w2, w3 := s as bv32, s2 as bv32, (s2 ^ s) as bv32;
    w2 | (w1 << 8) | (w1 << 16) | (w3 << 24)
  }

  function FtEntry1(s: bv8): bv32 {
    var s2 := (s << 1) ^ (s >> 7) ^ ((s >> 7) << 1) ^ ((s >> 7) << 3) ^ ((s >> 7) << 4);
    var w1, w2, w3 := s as bv32, s2 as bv32, (s2 ^ s) as bv32;
    w3 | (w2 << 8) | (w1 << 16) | (w1 << 24)
  }

  function FtEntry2(s: bv8): bv32 {
    var s2 := (s << 1) ^ (s >> 7) ^ ((s >> 7) << 1) ^ ((s >> 7) << 3) ^ ((s >> 7) << 4);
    var w1, w2, w3 := s as bv32, s2 as bv32, (s2 ^ s) as bv32;
    w1 | (w3 << 8) | (w2 << 16) | (w1 << 24)
  }

  function FtEntry3(s: bv8): bv32 {
    var s2 := (s << 1) ^ (s >> 7) ^ ((s >> 7) << 1) ^ ((s >> 7) << 3) ^ ((s >> 7) << 4);
    var w1, w2, w3 := s as bv32, s2 as bv32, (s2 ^ s) as bv32;
    w1 | (w1 << 8) | (w3 << 16) | (w2 << 24)
  }

  lemma FtEntryBytes0(s: bv8)
    ensures
      var s2 := (s << 1) ^ (s >> 7) ^ ((s >> 7) << 1) ^ ((s >> 7) << 3) ^ ((s >> 7) << 4);
      var w := FtEntry0(s);
      Byte0(w) == s2 && Byte1(w) == s && Byte2(w) == s && Byte3(w) == s2 ^ s
  {}

  lemma FlEntryBytes0(s: bv8)
    ensures
      var w := FlEntry0(s);
      Byte0(w) == s && Byte1(w) == 0 && Byte2(w) == 0 && Byte3(w) == 0
  {}

  lemma FtEntryBytes1(s: bv8)
    ensures
      var s2 := (s << 1) ^ (s >> 7) ^ ((s >> 7) << 1) ^ ((s >> 7) << 3) ^ ((s >> 7) << 4);
      var w := FtEntry1(s);
      Byte1(w) == s2 && Byte2(w) == s && Byte3(w) == s && Byte0(w) == s2 ^ s
  {}

  lemma FlEntryBytes1(s: bv8)
    ensures
      var w := FlEntry1(s);
      Byte1(w) == s && Byte2(w) == 0 && Byte3(w) == 0 && Byte0(w) == 0
  {}

  lemma FtEntryBytes2(s: bv8)
    ensures
      var s2 := (s << 1) ^ (s >> 7) ^ ((s >> 7) << 1) ^ ((s >> 7) << 3) ^ ((s >> 7) << 4);
      var w := FtEntry2(s);
      Byte2(w) == s2 && Byte3(w) == s && Byte0(w) == s && Byte1(w) == s2 ^ s
  {}

  lemma FlEntryBytes2(s: bv8)
    ensures
      var w := FlEntry2(s);
      Byte2(w) == s && Byte3(w) == 0 && Byte0(w) == 0 && Byte1(w) == 0
  {}

  lemma FtEntryBytes3(s: bv8)
    ensures
      var s2 := (s << 1) ^ (s >> 7) ^ ((s >> 7) << 1) ^ ((s >> 7) << 3) ^ ((s >> 7) << 4);
      var w := FtEntry3(s);
      Byte3(w) == s2 && Byte0(w) == s && Byte1(w) == s && Byte2(w) == s2 ^ s
  {}

  lemma FlEntryBytes3(s: bv8)
    ensures
      var w := FlEntry3(s);
      Byte3(w) == s && Byte0(w) == 0 && Byte1(w) == 0 && Byte2(w) == 0
  {}

  // ---------- Four table entries and a key word ----------

  function XorOfFive(t0: bv32, t1: bv32, t2: bv32, t3: bv32, k: bv32): bv32 { t0 ^ t1 ^ t2 ^ t3 ^ k }

  function XorOfFour(t0: bv8, t1: bv8, t2: bv8, t3: bv8): bv8 { t0 ^ t1 ^ t2 ^ t3 }

  lemma XorOfFiveByte0(t0: bv32, t1: bv32, t2: bv32, t3: bv32, k: bv32)
    ensures Byte0(XorOfFive(t0, t1, t2, t3, k)) == XorOfFour(Byte0(t0), Byte0(t1), Byte0(t2), Byte0(t3)) ^ Byte0(k)
  {}

  lemma XorOfFiveByte1(t0: bv32, t1: bv32, t2: bv32, t3: bv32, k: bv32)
    ensures Byte1(XorOfFive(t0, t1, t2, t3, k)) == XorOfFour(Byte1(t0), Byte1(t1), Byte1(t2), Byte1(t3)) ^ Byte1(k)
  {}

  lemma XorOfFiveByte2(t0: bv32, t1: bv32, t2: bv32, t3: bv32, k: bv32)
    ensures Byte2(XorOfFive(t0, t1, t2, t3, k)) == XorOfFour(Byte2(t0), Byte2(t1), Byte2(t2), Byte2(t3)) ^ Byte2(k)
  {}

  lemma XorOfFiveByte3(t0: bv32, t1: bv32, t2: bv32, t3: bv32, k: bv32)
    ensures Byte3(XorOfFive(t0, t1, t2, t3, k)) == XorOfFour(Byte3(t0), Byte3(t1), Byte3(t2), Byte3(t3)) ^ Byte3(k)
  {}

  lemma SumIsMixByte0(a: bv8, b: bv8, c: bv8, d: bv8)
    ensures
      var a1 := (a << 1) ^ (a >> 7) ^ ((a >> 7) << 1) ^ ((a >> 7) << 3) ^ ((a >> 7) << 4);
      var b1 := (b << 1) ^ (b >> 7) ^ ((b >> 7) << 1) ^ ((b >> 7) << 3) ^ ((b >> 7) << 4);
      XorOfFour(a1, b1 ^ b, c, d) == MixByte(a, b, c, d)
  {}

  lemma SumIsMixByte1(a: bv8, b: bv8, c: bv8, d: bv8)
    ensures
      var b1 := (b << 1) ^ (b >> 7) ^ ((b >> 7) << 1) ^ ((b >> 7) << 3) ^ ((b >> 7) << 4);
      var c1 := (c << 1) ^ (c >> 7) ^ ((c >> 7) << 1) ^ ((c >> 7) << 3) ^ ((c >> 7) << 4);
      XorOfFour(a, b1, c1 ^ c, d) == MixByte(b, c, d, a)
  {}

  lemma SumIsMixByte2(a: bv8, b: bv8, c: bv8, d: bv8)
    ensures
      var c1 := (c << 1) ^ (c >> 7) ^ ((c >> 7) << 1) ^ ((c >> 7) << 3) ^ ((c >> 7) << 4);
      var d1 := (d << 1) ^ (d >> 7) ^ ((d >> 7) << 1) ^ ((d >> 7) << 3) ^ ((d >> 7) << 4);
      XorOfFour(a, b, c1, d1 ^ d) == MixByte(c, d, a, b)
  {}

  lemma SumIsMixByte3(a: bv8, b: bv8, c: bv8, d: bv8)
    ensures
      var d1 := (d << 1) ^ (d >> 7) ^ ((d >> 7) << 1) ^ ((d >> 7) << 3) ^ ((d >> 7) << 4);
      var a1 := (a << 1) ^ (a >> 7) ^ ((a >> 7) << 1) ^ ((a >> 7) << 3) ^ ((a >> 7) << 4);
      XorOfFour(a1 ^ a, b, c, d1) == MixByte(d, a, b, c)
  {}

  lemma SumsOfSingles(a: bv8, b: bv8, c: bv8, d: bv8)
    ensures XorOfFour(a, 0, 0, 0) == a && XorOfFour(0, b, 0, 0) == b
    ensures XorOfFour(0, 0, c, 0) == c && XorOfFour(0, 0, 0, d) == d
  {}

  lemma FtSumByte0(a: bv8, b: bv8, c: bv8, d: bv8, k: bv32)
    ensures Byte0(XorOfFive(FtEntry0(a), FtEntry1(b), FtEntry2(c), FtEntry3(d), k)) == MixByte(a, b, c, d) ^ Byte0(k)
  {
    hide Byte0, Byte1, Byte2, Byte3, XorOfFive, XorOfFour, MixByte, FtEntry0, FtEntry1, FtEntry2, FtEntry3;
    FtEntryBytes0(a);
    FtEntryBytes1(b);
    FtEntryBytes2(c);
    FtEntryBytes3(d);
    XorOfFiveByte0(FtEntry0(a), FtEntry1(b), FtEntry2(c), FtEntry3(d), k);
    SumIsMixByte0(a, b, c, d);
  }

  lemma FtSumByte1(a: bv8, b: bv8, c: bv8, d: bv8, k: bv32)
    ensures Byte1(XorOfFive(FtEntry0(a), FtEntry1(b), FtEntry2(c), FtEntry3(d), k)) == MixByte(b, c, d, a) ^ Byte1(k)
  {
    hide Byte0, Byte1, Byte2, Byte3, XorOfFive, XorOfFour, MixByte, FtEntry0, FtEntry1, FtEntry2, FtEntry3;
    FtEntryBytes0(a);
    FtEntryBytes1(b);
    FtEntryBytes2(c);
    FtEntryBytes3(d);
    XorOfFiveByte1(FtEntry0(a), FtEntry1(b), FtEntry2(c), FtEntry3(d), k);
    SumIsMixByte1(a, b, c, d);
  }

  lemma FtSumByte2(a: bv8, b: bv8, c: bv8, d: bv8, k: bv32)
    ensures Byte2(XorOfFive(FtEntry0(a), FtEntry1(b), FtEntry2(c), FtEntry3(d), k)) == MixByte(c, d, a, b) ^ Byte2(k)
  {
    hide Byte0, Byte1, Byte2, Byte3, XorOfFive, XorOfFour, MixByte, FtEntry0, FtEntry1, FtEntry2, FtEntry3;
    FtEntryBytes0(a);
    FtEntryBytes1(b);
    FtEntryBytes2(c);
    FtEntryBytes3(d);
    XorOfFiveByte2(FtEntry0(a), FtEntry1(b), FtEntry2(c), FtEntry3(d), k);
    SumIsMixByte2(a, b, c, d);
  }

  lemma FtSumByte3(a: bv8, b: bv8, c: bv8, d: bv8, k: bv32)
    ensures Byte3(XorOfFive(FtEntry0(a), FtEntry1(b), FtEntry2(c), FtEntry3(d), k)) == MixByte(d, a, b, c) ^ Byte3(k)
  {
    hide Byte0, Byte1, Byte2, Byte3, XorOfFive, XorOfFour, MixByte, FtEntry0, FtEntry1, FtEntry2, FtEntry3;
    FtEntryBytes0(a);
    FtEntryBytes1(b);
    FtEntryBytes2(c);
    FtEntryBytes3(d);
    XorOfFiveByte3(FtEntry0(a), FtEntry1(b), FtEntry2(c), FtEntry3(d), k);
    SumIsMixByte3(a, b, c, d);
  }

  lemma FlSumByte0(a: bv8, b: bv8, c: bv8, d: bv8, k: bv32)
    ensures Byte0(XorOfFive(FlEntry0(a), FlEntry1(b), FlEntry2(c), FlEntry3(d), k)) == a ^ Byte0(k)
  {
    hide Byte0, Byte1, Byte2, Byte3, XorOfFive, XorOfFour, FlEntry0, FlEntry1, FlEntry2, FlEntry3;
    FlEntryBytes0(a);
    FlEntryBytes1(b);
    FlEntryBytes2(c);
    FlEntryBytes3(d);
    XorOfFiveByte0(FlEntry0(a), FlEntry1(b), FlEntry2(c), FlEntry3(d), k);
    SumsOfSingles(a, b, c, d);
  }

  lemma FlSumByte1(a: bv8, b: bv8, c: bv8, d: bv8, k: bv32)
    ensures Byte1(XorOfFive(FlEntry0(a), FlEntry1(b), FlEntry2(c), FlEntry3(d), k)) == b ^ Byte1(k)
  {
    hide Byte0, Byte1, Byte2, Byte3, XorOfFive, XorOfFour, FlEntry0, FlEntry1, FlEntry2, FlEntry3;
    FlEntryBytes0(a);
    FlEntryBytes1(b);
    FlEntryBytes2(c);
    FlEntryBytes3(d);
    XorOfFiveByte1(FlEntry0(a), FlEntry1(b), FlEntry2(c), FlEntry3(d), k);
    SumsOfSingles(a, b, c, d);
  }

  lemma FlSumByte2(a: bv8, b: bv8, c: bv8, d: bv8, k: bv32)
    ensures Byte2(XorOfFive(FlEntry0(a), FlEntry1(b), FlEntry2(c), FlEntry3(d), k)) == c ^ Byte2(k)
  {
    hide Byte0, Byte1, Byte2, Byte3, XorOfFive, XorOfFour, FlEntry0, FlEntry1, FlEntry2, FlEntry3;
    FlEntryBytes0(a);
    FlEntryBytes1(b);
    FlEntryBytes2(c);
    FlEntryBytes3(d);
    XorOfFiveByte2(FlEntry0(a), FlEntry1(b), FlEntry2(c), FlEntry3(d), k);
    SumsOfSingles(a, b, c, d);
  }

  lemma FlSumByte3(a: bv8, b: bv8, c: bv8, d: bv8, k: bv32)
    ensures Byte3(XorOfFive(FlEntry0(a), FlEntry1(b), FlEntry2(c), FlEntry3(d), k)) == d ^ Byte3(k)
  {
    hide Byte0, Byte1, Byte2, Byte3, XorOfFive, XorOfFour, FlEntry0, FlEntry1, FlEntry2, FlEntry3;
    FlEntryBytes0(a);
    FlEntryBytes1(b);
    FlEntryBytes2(c);
    FlEntryBytes3(d);
    XorOfFiveByte3(FlEntry0(a), FlEntry1(b), FlEntry2(c), FlEntry3(d), k);
    SumsOfSingles(a, b, c, d);
  }

  /** What one f_rn computes from the four S-box values: a column of MixColumns, plus the key. */
  lemma FtSumIsMixColumn(a: bv8, b: bv8, c: bv8, d: bv8, k: Word)
    ensures Unpack(Word(XorOfFive(FtEntry0(a), FtEntry1(b), FtEntry2(c), FtEntry3(d), k.bits)))
         == Xor(MixColumn(Column(a, b, c, d)), Unpack(k))
  {
    hide Byte0, Byte1, Byte2, Byte3, XorOfFive, MixByte, FtEntry0, FtEntry1, FtEntry2, FtEntry3;
    FtSumByte0(a, b, c, d, k.bits);
    FtSumByte1(a, b, c, d, k.bits);
    FtSumByte2(a, b, c, d, k.bits);
    FtSumByte3(a, b, c, d, k.bits);
  }

  /** What one f_rl, or ls_box, computes from the four S-box values: their column, plus the key. */
  lemma FlSumIsColumn(a: bv8, b: bv8, c: bv8, d: bv8, k: Word)
    ensures Unpack(Word(XorOfFive(FlEntry0(a), FlEntry1(b), FlEntry2(c), FlEntry3(d), k.bits)))
         == Xor(Column(a, b, c, d), Unpack(k))
  {
    hide Byte0, Byte1, Byte2, Byte3, XorOfFive, FlEntry0, FlEntry1, FlEntry2, FlEntry3;
    FlSumByte0(a, b, c, d, k.bits);
    FlSumByte1(a, b, c, d, k.bits);
    FlSumByte2(a, b, c, d, k.bits);
    FlSumByte3(a, b, c, d, k.bits);
  }
}
