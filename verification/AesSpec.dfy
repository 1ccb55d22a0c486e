/** The part of FIPS 197 that src/aes_prng.c claims to implement, written from the standard and
    independently of the table-driven code: bytes, columns, the 4x4 state, KeyExpansion and Cipher.
    The S-box is a parameter: every statement holds for any byte substitution. */
module AesSpec {

  type SBox = bv8 -> bv8

  /** A word of the standard: four bytes, first byte first. */
  datatype Column = Column(b0: bv8, b1: bv8, b2: bv8, b3: bv8)

  /** The state, column by column (section 3.4 of FIPS 197). */
  datatype State = State(c0: Column, c1: Column, c2: Column, c3: Column)

  function Xor(x: Column, y: Column): Column {
    Column(x.b0 ^ y.b0, x.b1 ^ y.b1, x.b2 ^ y.b2, x.b3 ^ y.b3)
  }

  /** Multiplication by x in GF(2^8) (section 4.2.1): shift left and, if a bit b7 fell out, xor
      {1b} = x^4 + x^3 + x + 1, here as the four positions where b7 re-enters.
      AesMixColumns.XtimeIsConditional states the conditional form of the standard. The byte maps below repeat this
      expression instead of calling Xtime, so that the solver sees one linear bit-vector term. */
  function Xtime(b: bv8): bv8 {
    (b << 1) ^ (b >> 7) ^ ((b >> 7) << 1) ^ ((b >> 7) << 3) ^ ((b >> 7) << 4)
  }

  // ---------- Transformations of section 5.1 ----------

  function SubColumn(sbox: SBox, c: Column): Column {
    Column(sbox(c.b0), sbox(c.b1), sbox(c.b2), sbox(c.b3))
  }

  function SubBytes(sbox: SBox, s: State): State {
    State(SubColumn(sbox, s.c0), SubColumn(sbox, s.c1), SubColumn(sbox, s.c2), SubColumn(sbox, s.c3))
  }

  /** Row r moves r columns to the left. */
  function ShiftRows(s: State): State {
    State(Column(s.c0.b0, s.c1.b1, s.c2.b2, s.c3.b3),
          Column(s.c1.b0, s.c2.b1, s.c3.b2, s.c0.b3),
          Column(s.c2.b0, s.c3.b1, s.c0.b2, s.c1.b3),
          Column(s.c3.b0, s.c0.b1, s.c1.b2, s.c2.b3))
  }

  /** One row of the MixColumns matrix, section 5.1.3: {02}a + {03}b + c + d. */
  function MixByte(a: bv8, b: bv8, c: bv8, d: bv8): bv8 {
    var a1 := (a << 1) ^ (a >> 7) ^ ((a >> 7) << 1) ^ ((a >> 7) << 3) ^ ((a >> 7) << 4);
    var b1 := (b << 1) ^ (b >> 7) ^ ((b >> 7) << 1) ^ ((b >> 7) << 3) ^ ((b >> 7) << 4);
    a1 ^ (b1 ^ b) ^ c ^ d
  }

  function MixColumn(c: Column): Column {
    Column(MixByte(c.b0, c.b1, c.b2, c.b3), MixByte(c.b1, c.b2, c.b3, c.b0),
           MixByte(c.b2, c.b3, c.b0, c.b1), MixByte(c.b3, c.b0, c.b1, c.b2))
  }

  function MixColumns(s: State): State {
    State(MixColumn(s.c0), MixColumn(s.c1), MixColumn(s.c2), MixColumn(s.c3))
  }

  function AddRoundKey(s: State, k: State): State {
    State(Xor(s.c0, k.c0), Xor(s.c1, k.c1), Xor(s.c2, k.c2), Xor(s.c3, k.c3))
  }

  // ---------- KeyExpansion, section 5.2 ----------

  function RotWord(c: Column): Column { Column(c.b1, c.b2, c.b3, c.b0) }

  /** [x^(i-1), {00}, {00}, {00}]. */
  function Rcon(i: nat): Column
    requires i > 0
  {
    if i == 1 then Column(1, 0, 0, 0) else Column(Xtime(Rcon(i - 1).b0), 0, 0, 0)
  }

  predicate KeyWords(key: seq<Column>) { |key| == 4 || |key| == 6 || |key| == 8 }

  /** Number of rounds for Nk key words. */
  function Nr(nk: nat): nat { nk + 6 }

  /** Word w[i] of the expanded key. */
  function KeyWord(sbox: SBox, key: seq<Column>, i: nat): Column
    requires KeyWords(key)
    decreases i, 1
  {
    if i < |key| then key[i] else Xor(KeyWord(sbox, key, i - |key|), KeyTemp(sbox, key, i))
  }

  /** The value called temp in the pseudo code: w[i-1], transformed on the two special positions. */
  function KeyTemp(sbox: SBox, key: seq<Column>, i: nat): Column
    requires KeyWords(key) && i >= |key|
    decreases i, 0
  {
    var prev := KeyWord(sbox, key, i - 1);
    if i % |key| == 0 then Xor(SubColumn(sbox, RotWord(prev)), Rcon(i / |key|))
    else if |key| > 6 && i % |key| == 4 then SubColumn(sbox, prev)
    else prev
  }

  function RoundKey(sbox: SBox, key: seq<Column>, round: nat): State
    requires KeyWords(key)
  {
    State(KeyWord(sbox, key, 4 * round), KeyWord(sbox, key, 4 * round + 1),
          KeyWord(sbox, key, 4 * round + 2), KeyWord(sbox, key, 4 * round + 3))
  }

  // ---------- Cipher, section 5.1 ----------

  function MainRound(sbox: SBox, s: State, k: State): State {
    AddRoundKey(MixColumns(ShiftRows(SubBytes(sbox, s))), k)
  }

  function FinalRound(sbox: SBox, s: State, k: State): State {
    AddRoundKey(ShiftRows(SubBytes(sbox, s)), k)
  }

  /** The state after the initial AddRoundKey and the given number of main rounds. */
  function AfterRounds(sbox: SBox, key: seq<Column>, input: State, rounds: nat): State
    requires KeyWords(key)
  {
    if rounds == 0 then AddRoundKey(input, RoundKey(sbox, key, 0))
    else MainRound(sbox, AfterRounds(sbox, key, input, rounds - 1), RoundKey(sbox, key, rounds))
  }

  function Cipher(sbox: SBox, key: seq<Column>, input: State): State
    requires KeyWords(key)
  {
    FinalRound(sbox, AfterRounds(sbox, key, input, Nr(|key|) - 1), RoundKey(sbox, key, Nr(|key|)))
  }

  // ---------- InvMixColumns, section 5.3.3 ----------

  /** One row of the InvMixColumns matrix: {0e}a + {0b}b + {0d}c + {09}d; the digit counts factors x. */
  function InvMixByte(a: bv8, b: bv8, c: bv8, d: bv8): bv8 {
    var a1 := (a << 1) ^ (a >> 7) ^ ((a >> 7) << 1) ^ ((a >> 7) << 3) ^ ((a >> 7) << 4);
    var b1 := (b << 1) ^ (b >> 7) ^ ((b >> 7) << 1) ^ ((b >> 7) << 3) ^ ((b >> 7) << 4);
    var c1 := (c << 1) ^ (c >> 7) ^ ((c >> 7) << 1) ^ ((c >> 7) << 3) ^ ((c >> 7) << 4);
    var d1 := (d << 1) ^ (d >> 7) ^ ((d >> 7) << 1) ^ ((d >> 7) << 3) ^ ((d >> 7) << 4);
    var a2 := (a1 << 1) ^ (a1 >> 7) ^ ((a1 >> 7) << 1) ^ ((a1 >> 7) << 3) ^ ((a1 >> 7) << 4);
    var b2 := (b1 << 1) ^ (b1 >> 7) ^ ((b1 >> 7) << 1) ^ ((b1 >> 7) << 3) ^ ((b1 >> 7) << 4);
    var c2 := (c1 << 1) ^ (c1 >> 7) ^ ((c1 >> 7) << 1) ^ ((c1 >> 7) << 3) ^ ((c1 >> 7) << 4);
    var d2 := (d1 << 1) ^ (d1 >> 7) ^ ((d1 >> 7) << 1) ^ ((d1 >> 7) << 3) ^ ((d1 >> 7) << 4);
    var a3 := (a2 << 1) ^ (a2 >> 7) ^ ((a2 >> 7) << 1) ^ ((a2 >> 7) << 3) ^ ((a2 >> 7) << 4);
    var b3 := (b2 << 1) ^ (b2 >> 7) ^ ((b2 >> 7) << 1) ^ ((b2 >> 7) << 3) ^ ((b2 >> 7) << 4);
    var c3 := (c2 << 1) ^ (c2 >> 7) ^ ((c2 >> 7) << 1) ^ ((c2 >> 7) << 3) ^ ((c2 >> 7) << 4);
    var d3 := (d2 << 1) ^ (d2 >> 7) ^ ((d2 >> 7) << 1) ^ ((d2 >> 7) << 3) ^ ((d2 >> 7) << 4);
    (a3 ^ a2 ^ a1) ^ (b3 ^ b1 ^ b) ^ (c3 ^ c2 ^ c) ^ (d3 ^ d)
  }

  function InvMixColumn(c: Column): Column {
    Column(InvMixByte(c.b0, c.b1, c.b2, c.b3), InvMixByte(c.b1, c.b2, c.b3, c.b0),
           InvMixByte(c.b2, c.b3, c.b0, c.b1), InvMixByte(c.b3, c.b0, c.b1, c.b2))
  }

  /** Word i of the key schedule of the Equivalent Inverse Cipher, section 5.3.5: the round keys in
      reverse order, with InvMixColumns applied to all but the first and the last. */
  function InvKeyWord(sbox: SBox, key: seq<Column>, i: nat): Column
    requires KeyWords(key) && i < 4 * (Nr(|key|) + 1)
  {
    var round := i / 4;
    var w := KeyWord(sbox, key, 4 * (Nr(|key|) - round) + i % 4);
    if round == 0 || round == Nr(|key|) then w else InvMixColumn(w)
  }
}
