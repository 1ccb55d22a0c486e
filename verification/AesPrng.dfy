/** The counter-mode generator of src/aes_prng.c: PRNG_Start, PRNG_Stop, PRNG_Generate, PRNG_Random. */
module AesPrng {
  import opened AesSpec
  import opened AesWords
  import opened AesCipher

  const COUNTER_RANGE := 0x1_0000_0000

  /** The four bytes PRNG_Generate writes for one counter value, least significant first. */
  function CounterColumn(counter: nat): Column {
    Column((counter % 0x100) as bv8, (counter / 0x100 % 0x100) as bv8,
           (counter / 0x1_0000 % 0x100) as bv8, (counter / 0x100_0000 % 0x100) as bv8)
  }

  /** The value of a uint32_t counter after x increments from 0. */
  function Wrap(x: nat): nat { x % COUNTER_RANGE }

  lemma WrapStep(x: nat)
    ensures (Wrap(x) + 1) % COUNTER_RANGE == Wrap(x + 1)
    ensures Wrap(x + COUNTER_RANGE) == Wrap(x)
  {}

  /** Input block number q: counters 4q to 4q+3, modulo 2^32. */
  function CounterBlock(q: nat): State {
    State(CounterColumn(Wrap(4 * q)), CounterColumn(Wrap(4 * q + 1)),
          CounterColumn(Wrap(4 * q + 2)), CounterColumn(Wrap(4 * q + 3)))
  }

  function StateColumn(s: State, i: nat): Column
    requires i < 4
  {
    if i == 0 then s.c0 else if i == 1 then s.c1 else if i == 2 then s.c2 else s.c3
  }

  /** The n-th value of the generator: little-endian word n mod 4 of the encrypted block n / 4. */
  function Stream(sbox: SBox, key: seq<Column>, n: nat): Word
    requires KeyWords(key)
  {
    Pack(StateColumn(Cipher(sbox, key, CounterBlock(n / 4)), n % 4))
  }

  lemma StreamAt(sbox: SBox, key: seq<Column>, q: nat, i: nat)
    requires KeyWords(key) && i < 4
    ensures Stream(sbox, key, 4 * q + i) == Pack(StateColumn(Cipher(sbox, key, CounterBlock(q)), i))
  {
    hide CounterBlock, Cipher, Pack;
    assert (4 * q + i) / 4 == q && (4 * q + i) % 4 == i;
  }

  /** The stream has period 2^32. */
  lemma StreamRepeats(sbox: SBox, key: seq<Column>, n: nat)
    requires KeyWords(key)
    ensures Stream(sbox, key, n + COUNTER_RANGE) == Stream(sbox, key, n)
  {
    hide CounterColumn, Cipher, Pack, Wrap, Stream;
    var q, i := n / 4, n % 4;
    StreamAt(sbox, key, q, i);
    StreamAt(sbox, key, q + COUNTER_RANGE / 4, i);
    WrapStep(4 * q);
    WrapStep(4 * q + 1);
    WrapStep(4 * q + 2);
    WrapStep(4 * q + 3);
  }

  class Prng {
    var prng_enabled: bool
    const prng_context: AesContext
    var prng_input_counter: nat
    const prng_values: array<Word>
    var prng_value_index: nat
    ghost var key: seq<Column>
    /** Since PRNG_Start: values returned, and blocks encrypted. */
    ghost var drawn: nat
    ghost var blocks: nat

    ghost predicate Valid()
      reads this, prng_context, prng_context.key_enc, prng_context.key_dec, prng_values
    {
      && prng_context.Valid() && prng_values.Length == 4
      && prng_values != prng_context.key_enc && prng_values != prng_context.key_dec
      && (prng_enabled ==>
            && |key| == 4 && prng_context.key_length == 16 && prng_context.Expanded(key, 44)
            && prng_value_index <= 4 && drawn + 4 == 4 * blocks + prng_value_index
            && prng_input_counter == Wrap(4 * blocks)
            && (blocks > 0 ==>
                  forall i | 0 <= i < 4 :: prng_values[i] == Stream(prng_context.sbox, key, 4 * (blocks - 1) + i)))
    }

    constructor (sbox: SBox)
      ensures Valid() && !prng_enabled && prng_context.sbox == sbox
    {
      prng_enabled := false;
      prng_context := new AesContext(sbox);
      prng_input_counter := 0;
      prng_values := new Word[4];
      prng_value_index := 0;
      key := [];
      drawn := 0;
      blocks := 0;
    }

    method PRNG_Start(seed: seq<bv8>)
      requires Valid() && |seed| == 16
      modifies this, prng_context, prng_context.key_enc, prng_context.key_dec
      ensures Valid() && prng_enabled && drawn == 0 && key == KeyColumns(seed, 4)
    {
      var r := prng_context.AES_SetKey(seed, 16);
      key := KeyColumns(seed, 4);
      drawn, blocks := 0, 0;
      prng_value_index := 4;
      prng_input_counter := 0;
      prng_enabled := true;
    }

    method PRNG_Stop()
      requires Valid()
      modifies this
      ensures Valid() && !prng_enabled
    {
      prng_enabled := false;
    }

    method PRNG_Generate()
      requires Valid() && prng_enabled && prng_value_index == 4
      modifies this, prng_values
      ensures Valid() && prng_enabled && prng_value_index == 0
      ensures drawn == old(drawn) && key == old(key)
    {
      hide CounterBlock, Cipher, Pack, KeyWord, KeyTemp, Stream, Wrap, BytesState, StateColumn, Unpack;
      var input, output := new bv8[16], new bv8[16];
      FillInput(input);
      prng_context.AES_Encrypt(output, input, key);
      ghost var block := Cipher(prng_context.sbox, key, CounterBlock(blocks));
      ReadOutput(output[..]);
      forall i | 0 <= i < 4
        ensures prng_values[i] == Stream(prng_context.sbox, key, 4 * blocks + i)
      {
        StreamAt(prng_context.sbox, key, blocks, i);
      }
      blocks := blocks + 1;
      prng_value_index := 0;
    }

    /** The second loop of PRNG_Generate. */
    method ReadOutput(output: seq<bv8>)
      requires prng_values.Length == 4 && |output| == 16
      modifies prng_values
      ensures forall j | 0 <= j < 4 :: prng_values[j] == Pack(StateColumn(BytesState(output), j))
    {
      hide Pack;
      for i := 0 to 4
        invariant forall j | 0 <= j < i :: prng_values[j] == Pack(StateColumn(BytesState(output), j))
      {
        prng_values[i] := LoadLe32(output, i);
      }
    }

    /** The first loop of PRNG_Generate. */
    method FillInput(input: array<bv8>)
      requires input.Length == 16 && prng_input_counter == Wrap(4 * blocks)
      modifies input, this`prng_input_counter
      ensures BytesState(input[..]) == CounterBlock(blocks)
      ensures prng_input_counter == Wrap(4 * blocks + 4)
    {
      hide CounterColumn, Wrap;
      for i := 0 to 4
        invariant prng_input_counter == Wrap(4 * blocks + i)
        invariant forall j | 0 <= j < i :: BytesColumn(input[..], j) == CounterColumn(Wrap(4 * blocks + j))
      {
        WriteCounter(input, i);
        WrapStep(4 * blocks + i);
        prng_input_counter := (prng_input_counter + 1) % COUNTER_RANGE;
      }
    }

    method WriteCounter(input: array<bv8>, i: nat)
      requires input.Length == 16 && i < 4
      modifies input
      ensures BytesColumn(input[..], i) == CounterColumn(prng_input_counter)
      ensures forall j | 0 <= j < 4 && j != i :: BytesColumn(input[..], j) == old(BytesColumn(input[..], j))
    {
      var c := CounterColumn(prng_input_counter);
      hide CounterColumn;
      input[4 * i], input[4 * i + 1], input[4 * i + 2], input[4 * i + 3] := c.b0, c.b1, c.b2, c.b3;
    }

    method PRNG_Random() returns (result: Word)
      requires Valid()
      modifies this, prng_values
      ensures Valid() && prng_enabled == old(prng_enabled) && key == old(key)
      ensures !prng_enabled ==> result == Word(0) && drawn == old(drawn)
      ensures prng_enabled ==> result == Stream(prng_context.sbox, key, old(drawn)) && drawn == old(drawn) + 1
    {
      hide Stream, KeyWord, Wrap;
      if !prng_enabled {
        return Word(0);
      }
      if prng_value_index >= 4 {
        PRNG_Generate();
      }
      result := prng_values[prng_value_index];
      prng_value_index := prng_value_index + 1;
      drawn := drawn + 1;
    }
  }
}
