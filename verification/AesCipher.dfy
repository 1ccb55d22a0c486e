/** AES_ExpandKey and AES_Encrypt of src/aes_prng.c over their key and block buffers, proved against
    KeyExpansion and Cipher of FIPS 197. */
module AesCipher {
  import opened AesSpec
  import opened AesWords
  import opened AesImixCol

  const AES_MAX_KEYLENGTH_U32 := 60

  const RCO_TAB: seq<Word> := [Word(1), Word(2), Word(4), Word(8), Word(16), Word(32), Word(64), Word(128), Word(27), Word(54)]

  // ---------- Words of the schedule ----------

  /** The macro ls_box. */
  function LsBox(sbox: SBox, w: Word): Word {
    var c := SubColumn(sbox, Unpack(w));
    Word(XorOfFive(FlEntry0(c.b0), FlEntry1(c.b1), FlEntry2(c.b2), FlEntry3(c.b3), 0))
  }

  /** The first two lines of loop4, loop6 and loop8tophalf. */
  function RotatedCore(sbox: SBox, t: Word, i: nat): Word
    requires i < 10
  {
    XorWords(LsBox(sbox, Ror(t, 8)), RCO_TAB[i])
  }

  lemma LsBoxIsSubColumn(sbox: SBox, w: Word)
    ensures Unpack(LsBox(sbox, w)) == SubColumn(sbox, Unpack(w))
  {
    var c := SubColumn(sbox, Unpack(w));
    FlSumIsColumn(c.b0, c.b1, c.b2, c.b3, Word(0));
    XorZero(c);
    hide Xor, XorOfFive, FlEntry0, FlEntry1, FlEntry2, FlEntry3;
  }

  lemma XorZero(c: Column)
    ensures Xor(c, Unpack(Word(0))) == c
  {}

  lemma XorCommutes(x: Column, y: Column)
    ensures Xor(x, y) == Xor(y, x)
  {}

  lemma RcoIsRcon(i: nat)
    requires i < 10
    ensures Unpack(RCO_TAB[i]) == Rcon(i + 1)
  {
    if i > 0 {
      RcoIsRcon(i - 1);
    }
  }

  /** w[j] for j a multiple of Nk: rotate, substitute, add the round constant, add w[j-Nk]. */
  lemma RotatedStep(sbox: SBox, key: seq<Column>, j: nat, i: nat, t: Word, k: Word)
    requires KeyWords(key) && i < 10 && j >= |key| && j % |key| == 0 && j / |key| == i + 1
    requires Unpack(t) == KeyWord(sbox, key, j - 1) && Unpack(k) == KeyWord(sbox, key, j - |key|)
    ensures Unpack(XorWords(RotatedCore(sbox, t, i), k)) == KeyWord(sbox, key, j)
  {
    RorRotates(t);
    LsBoxIsSubColumn(sbox, Ror(t, 8));
    RcoIsRcon(i);
    UnpackXor(LsBox(sbox, Ror(t, 8)), RCO_TAB[i]);
    UnpackXor(XorWords(LsBox(sbox, Ror(t, 8)), RCO_TAB[i]), k);
    XorCommutes(KeyTemp(sbox, key, j), Unpack(k));
    hide Xor, XorWords, LsBox, Ror, Unpack, SubColumn, RotWord, Rcon;
  }

  /** w[j] for eight-word keys at j mod 8 = 4: substitute, then add w[j-8]. */
  lemma SubstitutedStep(sbox: SBox, key: seq<Column>, j: nat, t: Word, k: Word)
    requires |key| == 8 && j >= 8 && j % 8 == 4
    requires Unpack(t) == KeyWord(sbox, key, j - 1) && Unpack(k) == KeyWord(sbox, key, j - 8)
    ensures Unpack(XorWords(k, LsBox(sbox, t))) == KeyWord(sbox, key, j)
  {
    LsBoxIsSubColumn(sbox, t);
    UnpackXor(k, LsBox(sbox, t));
    hide Xor, XorWords, LsBox, Unpack, SubColumn;
  }

  lemma PlainStep(sbox: SBox, key: seq<Column>, j: nat, t: Word, k: Word)
    requires KeyWords(key) && j >= |key| && j % |key| != 0 && (|key| == 8 ==> j % 8 != 4)
    requires Unpack(t) == KeyWord(sbox, key, j - 1) && Unpack(k) == KeyWord(sbox, key, j - |key|)
    ensures Unpack(XorWords(t, k)) == KeyWord(sbox, key, j)
  {
    UnpackXor(t, k);
    XorCommutes(Unpack(t), Unpack(k));
    hide Xor, XorWords, Unpack;
  }

  // ---------- Key columns of the caller's bytes ----------

  function BytesColumn(s: seq<bv8>, i: nat): Column
    requires 4 * i + 4 <= |s|
  {
    Column(s[4 * i], s[4 * i + 1], s[4 * i + 2], s[4 * i + 3])
  }

  function KeyColumns(in_key: seq<bv8>, nk: nat): (key: seq<Column>)
    requires 4 * nk <= |in_key|
    ensures |key| == nk && forall i | 0 <= i < nk :: key[i] == BytesColumn(in_key, i)
  {
    seq(nk, i requires 0 <= i < nk => BytesColumn(in_key, i))
  }

  function BytesState(s: seq<bv8>): State
    requires |s| == 16
  {
    State(BytesColumn(s, 0), BytesColumn(s, 1), BytesColumn(s, 2), BytesColumn(s, 3))
  }

  function WordsState(w: seq<Word>, k: nat): State
    requires k + 4 <= |w|
  {
    State(Unpack(w[k]), Unpack(w[k + 1]), Unpack(w[k + 2]), Unpack(w[k + 3]))
  }

  /** le32_to_cpu of word i of a byte buffer. */
  function LoadLe32(s: seq<bv8>, i: nat): Word
    requires 4 * i + 4 <= |s|
  {
    Pack(BytesColumn(s, i))
  }

  /** Where the loop over i puts the decryption word made from key_enc[i]; its own inverse. */
  function DecIndex(key_len: nat, i: nat): int { key_len + 24 - (i - i % 4) + i % 4 }

  // ---------- Rounds ----------

  /** The macro f_rn; the arguments are the words of bi that feed bytes 0 to 3, and the key word. */
  function Frn(sbox: SBox, x0: Word, x1: Word, x2: Word, x3: Word, k: Word): Word {
    Word(XorOfFive(FtEntry0(sbox(Byte0(x0.bits))), FtEntry1(sbox(Byte1(x1.bits))),
                   FtEntry2(sbox(Byte2(x2.bits))), FtEntry3(sbox(Byte3(x3.bits))), k.bits))
  }

  /** The macro f_rl. */
  function Frl(sbox: SBox, x0: Word, x1: Word, x2: Word, x3: Word, k: Word): Word {
    Word(XorOfFive(FlEntry0(sbox(Byte0(x0.bits))), FlEntry1(sbox(Byte1(x1.bits))),
                   FlEntry2(sbox(Byte2(x2.bits))), FlEntry3(sbox(Byte3(x3.bits))), k.bits))
  }

  lemma FrnIsRoundColumn(sbox: SBox, x0: Word, x1: Word, x2: Word, x3: Word, k: Word)
    ensures Unpack(Frn(sbox, x0, x1, x2, x3, k))
         == Xor(MixColumn(SubColumn(sbox, Column(Unpack(x0).b0, Unpack(x1).b1, Unpack(x2).b2, Unpack(x3).b3))), Unpack(k))
  {
    FtSumIsMixColumn(sbox(Byte0(x0.bits)), sbox(Byte1(x1.bits)), sbox(Byte2(x2.bits)), sbox(Byte3(x3.bits)), k);
    hide Xor, MixColumn, XorOfFive, FtEntry0, FtEntry1, FtEntry2, FtEntry3, Byte0, Byte1, Byte2, Byte3;
  }

  lemma FrlIsRoundColumn(sbox: SBox, x0: Word, x1: Word, x2: Word, x3: Word, k: Word)
    ensures Unpack(Frl(sbox, x0, x1, x2, x3, k))
         == Xor(SubColumn(sbox, Column(Unpack(x0).b0, Unpack(x1).b1, Unpack(x2).b2, Unpack(x3).b3)), Unpack(k))
  {
    FlSumIsColumn(sbox(Byte0(x0.bits)), sbox(Byte1(x1.bits)), sbox(Byte2(x2.bits)), sbox(Byte3(x3.bits)), k);
    hide Xor, XorOfFive, FlEntry0, FlEntry1, FlEntry2, FlEntry3, Byte0, Byte1, Byte2, Byte3;
  }

  class AesContext {
    const sbox: SBox
    const key_enc: array<Word>
    const key_dec: array<Word>
    var key_length: nat

    ghost predicate Valid() {
      key_enc.Length == AES_MAX_KEYLENGTH_U32 && key_dec.Length == AES_MAX_KEYLENGTH_U32 && key_enc != key_dec
    }

    constructor (sbox: SBox)
      ensures Valid() && this.sbox == sbox && fresh(key_enc) && fresh(key_dec)
    {
      this.sbox := sbox;
      key_enc := new Word[AES_MAX_KEYLENGTH_U32];
      key_dec := new Word[AES_MAX_KEYLENGTH_U32];
      key_length := 0;
    }

    /** The first n words of key_enc are the first n words of the FIPS 197 schedule of key. */
    ghost predicate Expanded(key: seq<Column>, n: nat)
      requires KeyWords(key)
      reads key_enc
    {
      n <= key_enc.Length && forall j | 0 <= j < n :: Unpack(key_enc[j]) == KeyWord(sbox, key, j)
    }

    /** The pair of statements  t ^= key_enc[from];  key_enc[to] = t;  that all loop macros repeat. */
    method XorAndStore(from: nat, to: nat, t0: Word, ghost key: seq<Column>) returns (t: Word)
      requires Valid() && KeyWords(key) && to == from + |key| < AES_MAX_KEYLENGTH_U32 && to % |key| != 0
      requires |key| == 8 ==> to % 8 != 4
      requires Expanded(key, to) && t0 == key_enc[to - 1]
      modifies key_enc
      ensures Expanded(key, to + 1) && t == key_enc[to]
      ensures key_enc[..4] == old(key_enc[..4])
    {
      hide KeyWord, XorWords, Unpack;
      PlainStep(sbox, key, to, t0, key_enc[from]);
      t := XorWords(t0, key_enc[from]);
      key_enc[to] := t;
    }

    /** The macro loop4. */
    method Loop4(i: nat, t0: Word, ghost key: seq<Column>) returns (t: Word)
      requires Valid() && i < 10 && |key| == 4 && Expanded(key, 4 * i + 4) && t0 == key_enc[4 * i + 3]
      modifies key_enc
      ensures Expanded(key, 4 * i + 8) && t == key_enc[4 * i + 7]
      ensures key_enc[..4] == old(key_enc[..4])
    {
      hide KeyWord, RotatedCore, XorWords, Unpack;
      RotatedStep(sbox, key, 4 * i + 4, i, t0, key_enc[4 * i]);
      t := RotatedCore(sbox, t0, i);
      t := XorWords(t, key_enc[4 * i]);
      key_enc[4 * i + 4] := t;
      t := XorAndStore(4 * i + 1, 4 * i + 5, t, key);
      t := XorAndStore(4 * i + 2, 4 * i + 6, t, key);
      t := XorAndStore(4 * i + 3, 4 * i + 7, t, key);
    }

    /** The macro loop6. */
    method Loop6(i: nat, t0: Word, ghost key: seq<Column>) returns (t: Word)
      requires Valid() && i < 8 && |key| == 6 && Expanded(key, 6 * i + 6) && t0 == key_enc[6 * i + 5]
      modifies key_enc
      ensures Expanded(key, 6 * i + 12) && t == key_enc[6 * i + 11]
      ensures key_enc[..4] == old(key_enc[..4])
    {
      hide KeyWord, RotatedCore, XorWords, Unpack;
      RotatedStep(sbox, key, 6 * i + 6, i, t0, key_enc[6 * i]);
      t := RotatedCore(sbox, t0, i);
      t := XorWords(t, key_enc[6 * i]);
      key_enc[6 * i + 6] := t;
      t := XorAndStore(6 * i + 1, 6 * i + 7, t, key);
      t := XorAndStore(6 * i + 2, 6 * i + 8, t, key);
      t := XorAndStore(6 * i + 3, 6 * i + 9, t, key);
      t := XorAndStore(6 * i + 4, 6 * i + 10, t, key);
      t := XorAndStore(6 * i + 5, 6 * i + 11, t, key);
    }

    /** The macro loop8tophalf. */
    method Loop8TopHalf(i: nat, t0: Word, ghost key: seq<Column>) returns (t: Word)
      requires Valid() && i < 7 && |key| == 8 && Expanded(key, 8 * i + 8) && t0 == key_enc[8 * i + 7]
      modifies key_enc
      ensures Expanded(key, 8 * i + 12) && t == key_enc[8 * i + 11]
      ensures key_enc[..4] == old(key_enc[..4])
    {
      hide KeyWord, RotatedCore, XorWords, Unpack;
      RotatedStep(sbox, key, 8 * i + 8, i, t0, key_enc[8 * i]);
      t := RotatedCore(sbox, t0, i);
      t := XorWords(t, key_enc[8 * i]);
      key_enc[8 * i + 8] := t;
      t := XorAndStore(8 * i + 1, 8 * i + 9, t, key);
      t := XorAndStore(8 * i + 2, 8 * i + 10, t, key);
      t := XorAndStore(8 * i + 3, 8 * i + 11, t, key);
    }

    /** The macro loop8. */
    method Loop8(i: nat, t0: Word, ghost key: seq<Column>) returns (t: Word)
      requires Valid() && i < 6 && |key| == 8 && Expanded(key, 8 * i + 8) && t0 == key_enc[8 * i + 7]
      modifies key_enc
      ensures Expanded(key, 8 * i + 16) && t == key_enc[8 * i + 15]
      ensures key_enc[..4] == old(key_enc[..4])
    {
      hide KeyWord, LsBox, XorWords, Unpack;
      t := Loop8TopHalf(i, t0, key);
      SubstitutedStep(sbox, key, 8 * i + 12, t, key_enc[8 * i + 4]);
      t := XorWords(key_enc[8 * i + 4], LsBox(sbox, t));
      key_enc[8 * i + 12] := t;
      t := XorAndStore(8 * i + 5, 8 * i + 13, t, key);
      t := XorAndStore(8 * i + 6, 8 * i + 14, t, key);
      t := XorAndStore(8 * i + 7, 8 * i + 15, t, key);
    }

    /** The three arms of the switch in AES_ExpandKey. */
    method ExpandRounds(in_key: seq<bv8>, key_len: nat, ghost key: seq<Column>)
      requires Valid() && KeyWords(key) && key_len == 4 * |key| && |in_key| >= key_len
      requires key == KeyColumns(in_key, |key|) && Expanded(key, 4)
      modifies key_enc
      ensures Expanded(key, key_len + 28)
      ensures key_enc[..4] == old(key_enc[..4])
    {
      hide KeyTemp, Unpack, Pack;
      var t: Word;
      if key_len == 16 {
        t := key_enc[3];
        for i := 0 to 10
          invariant Expanded(key, 4 * i + 4) && t == key_enc[4 * i + 3] && key_enc[..4] == old(key_enc[..4])
        {
          t := Loop4(i, t, key);
        }
      } else if key_len == 24 {
        LoadedKeyWord(in_key, 6, 4);
        LoadedKeyWord(in_key, 6, 5);
        key_enc[4] := LoadLe32(in_key, 4);
        key_enc[5] := LoadLe32(in_key, 5);
        t := key_enc[5];
        for i := 0 to 8
          invariant Expanded(key, 6 * i + 6) && t == key_enc[6 * i + 5] && key_enc[..4] == old(key_enc[..4])
        {
          t := Loop6(i, t, key);
        }
      } else {
        LoadedKeyWord(in_key, 8, 4);
        LoadedKeyWord(in_key, 8, 5);
        LoadedKeyWord(in_key, 8, 6);
        LoadedKeyWord(in_key, 8, 7);
        key_enc[4] := LoadLe32(in_key, 4);
        key_enc[5] := LoadLe32(in_key, 5);
        key_enc[6] := LoadLe32(in_key, 6);
        key_enc[7] := LoadLe32(in_key, 7);
        t := key_enc[7];
        for i := 0 to 6
          invariant Expanded(key, 8 * i + 8) && t == key_enc[8 * i + 7] && key_enc[..4] == old(key_enc[..4])
        {
          t := Loop8(i, t, key);
        }
        t := Loop8TopHalf(6, t, key);
      }
    }

    lemma LoadedKeyWord(in_key: seq<bv8>, nk: nat, i: nat)
      requires i < nk && 4 * nk <= |in_key| && KeyWords(KeyColumns(in_key, nk))
      ensures Unpack(LoadLe32(in_key, i)) == KeyWord(sbox, KeyColumns(in_key, nk), i)
    {
      UnpackPack(BytesColumn(in_key, i));
    }

    ghost predicate DecryptionWord(key: seq<Column>, j: nat)
      requires KeyWords(key) && j < 4 * (Nr(|key|) + 1)
      reads key_dec
    {
      j < key_dec.Length && Unpack(key_dec[j]) == InvKeyWord(sbox, key, j)
    }

    /** key_dec holds the schedule of the Equivalent Inverse Cipher. */
    ghost predicate DecryptionSchedule(key: seq<Column>)
      requires KeyWords(key)
      reads key_dec
    {
      forall j | 0 <= j < 4 * (Nr(|key|) + 1) :: DecryptionWord(key, j)
    }

    lemma InnerWord(key: seq<Column>, key_len: nat, i: nat)
      requires KeyWords(key) && key_len == 4 * |key| && 4 <= i < key_len + 24
      ensures 4 <= DecIndex(key_len, i) < key_len + 24 && DecIndex(key_len, DecIndex(key_len, i)) == i
      ensures InvKeyWord(sbox, key, DecIndex(key_len, i)) == InvMixColumn(KeyWord(sbox, key, i))
    {
      hide KeyWord, InvMixColumn;
      var round, c := i / 4, i % 4;
      var j := 4 * (|key| + 6 - round) + c;
      assert DecIndex(key_len, i) == j && j / 4 == |key| + 6 - round && j % 4 == c;
    }

    lemma OuterWord(key: seq<Column>, key_len: nat, j: nat)
      requires KeyWords(key) && key_len == 4 * |key| && (j < 4 || key_len + 24 <= j < key_len + 28)
      ensures InvKeyWord(sbox, key, j) == KeyWord(sbox, key, if j < 4 then key_len + 24 + j else j - key_len - 24)
    {
      hide KeyWord, InvMixColumn;
    }

    /** The last loop of AES_ExpandKey. */
    method FillInnerDecryptionWords(key_len: nat, ghost key: seq<Column>)
      requires Valid() && KeyWords(key) && key_len == 4 * |key| && Expanded(key, key_len + 28)
      requires forall j | 0 <= j < 4 || key_len + 24 <= j < key_len + 28 :: DecryptionWord(key, j)
      modifies key_dec
      ensures DecryptionSchedule(key)
    {
      hide KeyWord, KeyTemp, Unpack, ImixCol, InvKeyWord, InvMixColumn;
      for i := 4 to key_len + 24
        invariant forall j | 0 <= j < 4 || key_len + 24 <= j < key_len + 28 :: key_dec[j] == old(key_dec[j])
        invariant forall j | 4 <= j < key_len + 24 && DecIndex(key_len, j) < i :: DecryptionWord(key, j)
      {
        InnerWord(key, key_len, i);
        ImixColIsInvMixColumn(key_enc[i]);
        key_dec[DecIndex(key_len, i)] := ImixCol(key_enc[i]);
      }
      forall j | 0 <= j < key_len + 28
        ensures DecryptionWord(key, j)
      {
        if 4 <= j < key_len + 24 {
          InnerWord(key, key_len, j);
        } else {
          assert old(DecryptionWord(key, j));
        }
      }
    }

    /** The statements before the switch in AES_ExpandKey. */
    method LoadFirstWords(in_key: seq<bv8>, key_len: nat, ghost key: seq<Column>)
      requires Valid() && KeyWords(key) && key_len == 4 * |key| && |in_key| >= key_len
      requires key == KeyColumns(in_key, |key|)
      modifies key_enc, key_dec
      ensures Expanded(key, 4) && forall j | 0 <= j < 4 :: key_dec[key_len + 24 + j] == key_enc[j]
    {
      hide KeyWord, Unpack, KeyColumns;
      key_enc[0] := LoadLe32(in_key, 0);
      key_dec[key_len + 24] := key_enc[0];
      key_enc[1] := LoadLe32(in_key, 1);
      key_dec[key_len + 25] := key_enc[1];
      key_enc[2] := LoadLe32(in_key, 2);
      key_dec[key_len + 26] := key_enc[2];
      key_enc[3] := LoadLe32(in_key, 3);
      key_dec[key_len + 27] := key_enc[3];
      LoadedKeyWord(in_key, key_len / 4, 0);
      LoadedKeyWord(in_key, key_len / 4, 1);
      LoadedKeyWord(in_key, key_len / 4, 2);
      LoadedKeyWord(in_key, key_len / 4, 3);
    }

    /** The statements after the switch in AES_ExpandKey. */
    method FillDecryptionKey(key_len: nat, ghost key: seq<Column>)
      requires Valid() && KeyWords(key) && key_len == 4 * |key| && Expanded(key, key_len + 28)
      requires forall j | 0 <= j < 4 :: key_dec[key_len + 24 + j] == key_enc[j]
      modifies key_dec
      ensures DecryptionSchedule(key)
    {
      hide KeyWord, Unpack, InvKeyWord;
      key_dec[0] := key_enc[key_len + 24];
      key_dec[1] := key_enc[key_len + 25];
      key_dec[2] := key_enc[key_len + 26];
      key_dec[3] := key_enc[key_len + 27];
      assert forall j | 0 <= j < 4 :: key_dec[key_len + 24 + j] == key_enc[j];
      forall j | 0 <= j < 4 || key_len + 24 <= j < key_len + 28
        ensures DecryptionWord(key, j)
      {
        OuterWord(key, key_len, j);
        assert key_dec[j] == key_enc[if j < 4 then key_len + 24 + j else j - key_len - 24];
      }
      FillInnerDecryptionWords(key_len, key);
    }

    method AES_ExpandKey(in_key: seq<bv8>, key_len: nat) returns (r: int)
      requires Valid()
      requires key_len in {16, 24, 32} ==> |in_key| >= key_len
      modifies this, key_enc, key_dec
      ensures Valid() && (r == 0 || r == -1)
      ensures r == 0 <==> key_len in {16, 24, 32}
      ensures r == 0 ==> key_length == key_len
      ensures r == 0 ==> var key := KeyColumns(in_key, key_len / 4);
                         Expanded(key, key_len + 28) && DecryptionSchedule(key)
      ensures r == -1 ==> key_length == old(key_length) && key_enc[..] == old(key_enc[..]) && key_dec[..] == old(key_dec[..])
    {
      if key_len != 16 && key_len != 24 && key_len != 32 {
        return -1;
      }
      key_length := key_len;
      ghost var key := KeyColumns(in_key, key_len / 4);
      LoadFirstWords(in_key, key_len, key);
      ghost var first := key_enc[..4];
      ExpandRounds(in_key, key_len, key);
      assert forall j | 0 <= j < 4 :: first[j] == key_enc[..4][j] == key_enc[j];
      FillDecryptionKey(key_len, key);
      r := 0;
    }

    method AES_SetKey(in_key: seq<bv8>, key_len: nat) returns (r: int)
      requires Valid()
      requires key_len in {16, 24, 32} ==> |in_key| >= key_len
      modifies this, key_enc, key_dec
      ensures Valid() && (r == 0 || r == -1)
      ensures r == 0 <==> key_len in {16, 24, 32}
      ensures r == 0 ==> key_length == key_len
      ensures r == 0 ==> var key := KeyColumns(in_key, key_len / 4);
                         Expanded(key, key_len + 28) && DecryptionSchedule(key)
      ensures r == -1 ==> key_length == old(key_length) && key_enc[..] == old(key_enc[..]) && key_dec[..] == old(key_dec[..])
    {
      r := AES_ExpandKey(in_key, key_len);
    }

    /** The macro f_nround with kp at key_enc + k. */
    method FnRound(bo: array<Word>, bi: array<Word>, k: nat)
      requires Valid() && bo.Length == 4 && bi.Length == 4 && bo != bi && k + 4 <= AES_MAX_KEYLENGTH_U32
      modifies bo
      requires bo != key_enc
      ensures WordsState(bo[..], 0) == MainRound(sbox, WordsState(bi[..], 0), WordsState(key_enc[..], k))
    {
      hide Xor, MixColumn, Unpack, Frn;
      bo[0] := Frn(sbox, bi[0], bi[1], bi[2], bi[3], key_enc[k]);
      bo[1] := Frn(sbox, bi[1], bi[2], bi[3], bi[0], key_enc[k + 1]);
      bo[2] := Frn(sbox, bi[2], bi[3], bi[0], bi[1], key_enc[k + 2]);
      bo[3] := Frn(sbox, bi[3], bi[0], bi[1], bi[2], key_enc[k + 3]);
      FrnIsRoundColumn(sbox, bi[0], bi[1], bi[2], bi[3], key_enc[k]);
      FrnIsRoundColumn(sbox, bi[1], bi[2], bi[3], bi[0], key_enc[k + 1]);
      FrnIsRoundColumn(sbox, bi[2], bi[3], bi[0], bi[1], key_enc[k + 2]);
      FrnIsRoundColumn(sbox, bi[3], bi[0], bi[1], bi[2], key_enc[k + 3]);
    }

    /** The macro f_lround. */
    method FlRound(bo: array<Word>, bi: array<Word>, k: nat)
      requires Valid() && bo.Length == 4 && bi.Length == 4 && bo != bi && k + 4 <= AES_MAX_KEYLENGTH_U32
      requires bo != key_enc
      modifies bo
      ensures WordsState(bo[..], 0) == FinalRound(sbox, WordsState(bi[..], 0), WordsState(key_enc[..], k))
    {
      hide Xor, Unpack, Frl;
      bo[0] := Frl(sbox, bi[0], bi[1], bi[2], bi[3], key_enc[k]);
      bo[1] := Frl(sbox, bi[1], bi[2], bi[3], bi[0], key_enc[k + 1]);
      bo[2] := Frl(sbox, bi[2], bi[3], bi[0], bi[1], key_enc[k + 2]);
      bo[3] := Frl(sbox, bi[3], bi[0], bi[1], bi[2], key_enc[k + 3]);
      FrlIsRoundColumn(sbox, bi[0], bi[1], bi[2], bi[3], key_enc[k]);
      FrlIsRoundColumn(sbox, bi[1], bi[2], bi[3], bi[0], key_enc[k + 1]);
      FrlIsRoundColumn(sbox, bi[2], bi[3], bi[0], bi[1], key_enc[k + 2]);
      FrlIsRoundColumn(sbox, bi[3], bi[0], bi[1], bi[2], key_enc[k + 3]);
    }

    lemma KeyStateIsRoundKey(key: seq<Column>, round: nat)
      requires Valid() && KeyWords(key) && Expanded(key, 4 * round + 4)
      ensures WordsState(key_enc[..], 4 * round) == RoundKey(sbox, key, round)
    {}

    /** Two f_nround in a row: from b0 to b1 and back; kp advances by two round keys. */
    method TwoRounds(b0: array<Word>, b1: array<Word>, kp: nat, ghost key: seq<Column>, ghost input: State,
                     ghost round: nat)
      returns (kp': nat)
      requires Valid() && KeyWords(key) && b0.Length == 4 && b1.Length == 4 && b0 != b1 && b0 != key_enc
      requires b1 != key_enc
      requires kp == 4 * (round + 1) && 4 * round + 12 <= AES_MAX_KEYLENGTH_U32 && Expanded(key, 4 * round + 12)
      requires WordsState(b0[..], 0) == AfterRounds(sbox, key, input, round)
      modifies b0, b1
      ensures kp' == 4 * (round + 3)
      ensures WordsState(b0[..], 0) == AfterRounds(sbox, key, input, round + 2)
    {
      hide MainRound, RoundKey, KeyWord;
      KeyStateIsRoundKey(key, round + 1);
      KeyStateIsRoundKey(key, round + 2);
      FnRound(b1, b0, kp);
      FnRound(b0, b1, kp + 4);
      kp' := kp + 8;
    }

    /** The rounds before the last: the two pairs that depend on the key length, four pairs and one more. */
    method MainRounds(b0: array<Word>, b1: array<Word>, ghost key: seq<Column>, ghost input: State) returns (kp: nat)
      requires Valid() && KeyWords(key) && key_length == 4 * |key| && Expanded(key, key_length + 28)
      requires b0.Length == 4 && b1.Length == 4 && b0 != b1 && b0 != key_enc && b1 != key_enc
      requires WordsState(b0[..], 0) == AfterRounds(sbox, key, input, 0)
      modifies b0, b1
      ensures kp == 4 * Nr(|key|)
      ensures WordsState(b1[..], 0) == AfterRounds(sbox, key, input, Nr(|key|) - 1)
    {
      hide MainRound, RoundKey, KeyWord, AfterRounds, WordsState;
      kp := 4;
      ghost var round := 0;
      if key_length > 24 {
        kp := TwoRounds(b0, b1, kp, key, input, round);
        round := round + 2;
      }
      if key_length > 16 {
        kp := TwoRounds(b0, b1, kp, key, input, round);
        round := round + 2;
      }
      kp := TwoRounds(b0, b1, kp, key, input, round);
      kp := TwoRounds(b0, b1, kp, key, input, round + 2);
      kp := TwoRounds(b0, b1, kp, key, input, round + 4);
      kp := TwoRounds(b0, b1, kp, key, input, round + 6);
      KeyStateIsRoundKey(key, round + 9);
      FnRound(b1, b0, kp);
      kp := kp + 4;
      OneMoreRound(key, input, round + 9);
    }

    lemma OneMoreRound(key: seq<Column>, input: State, round: nat)
      requires KeyWords(key) && round > 0
      ensures AfterRounds(sbox, key, input, round)
           == MainRound(sbox, AfterRounds(sbox, key, input, round - 1), RoundKey(sbox, key, round))
    {}

    method AES_Encrypt(out: array<bv8>, input: array<bv8>, ghost key: seq<Column>)
      requires Valid() && KeyWords(key) && key_length == 4 * |key| && Expanded(key, key_length + 28)
      requires out.Length == 16 && input.Length == 16
      modifies out
      ensures BytesState(out[..]) == Cipher(sbox, key, BytesState(old(input[..])))
    {
      hide FinalRound, RoundKey, KeyWord, AfterRounds;
      ghost var block := BytesState(input[..]);
      var b0, b1 := new Word[4], new Word[4];
      LoadBlock(b0, input[..], key);
      var kp := MainRounds(b0, b1, key, block);
      KeyStateIsRoundKey(key, Nr(|key|));
      FlRound(b0, b1, kp);
      StoreBlock(out, b0);
    }

    /** b0[i] = le32_to_cpu(src[i]) ^ key_enc[i]. */
    method LoadBlock(b0: array<Word>, input: seq<bv8>, ghost key: seq<Column>)
      requires Valid() && KeyWords(key) && Expanded(key, 4) && b0.Length == 4 && b0 != key_enc && |input| == 16
      modifies b0
      ensures WordsState(b0[..], 0) == AfterRounds(sbox, key, BytesState(input), 0)
    {
      hide Unpack, Pack, XorWords, Xor, KeyWord;
      forall i | 0 <= i < 4
        ensures Unpack(XorWords(LoadLe32(input, i), key_enc[i])) == Xor(BytesColumn(input, i), KeyWord(sbox, key, i))
      {
        UnpackPack(BytesColumn(input, i));
        UnpackXor(LoadLe32(input, i), key_enc[i]);
      }
      b0[0] := XorWords(LoadLe32(input, 0), key_enc[0]);
      b0[1] := XorWords(LoadLe32(input, 1), key_enc[1]);
      b0[2] := XorWords(LoadLe32(input, 2), key_enc[2]);
      b0[3] := XorWords(LoadLe32(input, 3), key_enc[3]);
    }

    /** dst[i] = cpu_to_le32(b0[i]). */
    method StoreBlock(out: array<bv8>, b0: array<Word>)
      requires out.Length == 16 && b0.Length == 4
      modifies out
      ensures BytesState(out[..]) == WordsState(b0[..], 0)
    {
      StoreWord(out, 0, b0[0]);
      StoreWord(out, 1, b0[1]);
      StoreWord(out, 2, b0[2]);
      StoreWord(out, 3, b0[3]);
    }

    method StoreWord(out: array<bv8>, i: nat, w: Word)
      requires out.Length == 16 && i < 4
      modifies out
      ensures BytesColumn(out[..], i) == Unpack(w)
      ensures forall j | 0 <= j < 4 && j != i :: BytesColumn(out[..], j) == old(BytesColumn(out[..], j))
    {
      var c := Unpack(w);
      hide Unpack;
      out[4 * i], out[4 * i + 1], out[4 * i + 2], out[4 * i + 3] := c.b0, c.b1, c.b2, c.b3;
    }
  }
}
