/** The jitter stream: splitmix64 (src/client.c). */
module SplitMix {

  // The three shift-xor rounds and the two odd multiplications, each beside its
  // inverse modulo 2^64.

  function Xor30(z: bv64): (r: bv64) { z ^ (z >> 30) }

  function Unxor30(z: bv64): (r: bv64) { z ^ (z >> 30) ^ (z >> 60) }

  function Xor27(z: bv64): (r: bv64) { z ^ (z >> 27) }

  function Unxor27(z: bv64): (r: bv64) { z ^ (z >> 27) ^ (z >> 54) }

  function Xor31(z: bv64): (r: bv64) { z ^ (z >> 31) }

  function Unxor31(z: bv64): (r: bv64) { z ^ (z >> 31) ^ (z >> 62) }

  function Mul1(z: bv64): (r: bv64) { z * 0xBF58_476D_1CE4_E5B9 }

  function Unmul1(z: bv64): (r: bv64) { z * 0x96DE_1B17_3F11_9089 }

  function Mul2(z: bv64): (r: bv64) { z * 0x94D0_49BB_1331_11EB }

  function Unmul2(z: bv64): (r: bv64) { z * 0x3196_42B2_D24D_8EC3 }

  /** The state step. */
  function Advance(state: bv64): (r: bv64)
  {
    state + 0x9E37_79B9_7F4A_7C15
  }

  /** The output function, applied to the advanced state. */
  function Mix(z: bv64): (r: bv64)
  {
    Xor31(Mul2(Xor27(Mul1(Xor30(z)))))
  }

  function Unmix(r: bv64): (z: bv64)
  {
    Unxor30(Unmul1(Unxor27(Unmul2(Unxor31(r)))))
  }

  // An inverse meets its function through a syntactic argument first; congruence
  // does the rest.

  lemma {:induction false} Xor30Inverse(z: bv64)
    ensures Unxor30(Xor30(z)) == z && Xor30(Unxor30(z)) == z
  {
    assert Unxor30(z ^ (z >> 30)) == z;
    assert Xor30(z ^ (z >> 30) ^ (z >> 60)) == z;
  }

  lemma {:induction false} Xor27Inverse(z: bv64)
    ensures Unxor27(Xor27(z)) == z && Xor27(Unxor27(z)) == z
  {
    assert Unxor27(z ^ (z >> 27)) == z;
    assert Xor27(z ^ (z >> 27) ^ (z >> 54)) == z;
  }

  lemma {:induction false} Xor31Inverse(z: bv64)
    ensures Unxor31(Xor31(z)) == z && Xor31(Unxor31(z)) == z
  {
    assert Unxor31(z ^ (z >> 31)) == z;
    assert Xor31(z ^ (z >> 31) ^ (z >> 62)) == z;
  }

  lemma {:induction false} Mul1Inverse(z: bv64)
    ensures Unmul1(Mul1(z)) == z && Mul1(Unmul1(z)) == z
  {
    assert Unmul1(z * 0xBF58_476D_1CE4_E5B9) == z;
    assert Mul1(z * 0x96DE_1B17_3F11_9089) == z;
  }

  lemma {:induction false} Mul2Inverse(z: bv64)
    ensures Unmul2(Mul2(z)) == z && Mul2(Unmul2(z)) == z
  {
    assert Unmul2(z * 0x94D0_49BB_1331_11EB) == z;
    assert Mul2(z * 0x3196_42B2_D24D_8EC3) == z;
  }

  /** The output mix is a bijection on 64-bit words. */
  lemma {:induction false} MixIsBijective(z: bv64)
    ensures Unmix(Mix(z)) == z && Mix(Unmix(z)) == z
  {
    Xor30Inverse(z);
    Mul1Inverse(Xor30(z));
    Xor27Inverse(Mul1(Xor30(z)));
    Mul2Inverse(Xor27(Mul1(Xor30(z))));
    Xor31Inverse(Mul2(Xor27(Mul1(Xor30(z)))));
    Xor31Inverse(z);
    Mul2Inverse(Unxor31(z));
    Xor27Inverse(Unmul2(Unxor31(z)));
    Mul1Inverse(Unxor27(Unmul2(Unxor31(z))));
    Xor30Inverse(Unmul1(Unxor27(Unmul2(Unxor31(z)))));
  }

  /** The per-request seed: the client's seed xor the request ordinal. */
  function RequestSeed(seed: bv64, ordinal: bv32): (s: bv64)
  {
    seed ^ (ordinal as bv64)
  }

  /** The raw draw of a request's first formula-based wait. */
  function FirstDraw(seed: bv64, ordinal: bv32): (r: bv64)
  {
    Mix(Advance(RequestSeed(seed, ordinal)))
  }

  /** Reads the ordinal back out of an advanced request seed. */
  function OrdinalOf(seed: bv64, state: bv64): (n: bv32)
  {
    (((state - 0x9E37_79B9_7F4A_7C15) ^ seed) & 0xFFFF_FFFF) as bv32
  }

  lemma {:induction false} OrdinalIsRecoverable(seed: bv64, ordinal: bv32)
    ensures OrdinalOf(seed, Advance(RequestSeed(seed, ordinal))) == ordinal
  {
    assert OrdinalOf(seed, (seed ^ (ordinal as bv64)) + 0x9E37_79B9_7F4A_7C15) == ordinal;
    assert Advance(seed ^ (ordinal as bv64)) == (seed ^ (ordinal as bv64)) + 0x9E37_79B9_7F4A_7C15;
  }

  /** Requests of one client with different ordinals never share their first raw
      draw (the waits may still coincide, being reduced modulo the jitter). */
  lemma {:induction false} FirstDrawsAreDistinct(seed: bv64, a: bv32, b: bv32)
    requires a != b
    ensures FirstDraw(seed, a) != FirstDraw(seed, b)
  {
    OrdinalIsRecoverable(seed, a);
    OrdinalIsRecoverable(seed, b);
    MixIsBijective(Advance(RequestSeed(seed, a)));
    MixIsBijective(Advance(RequestSeed(seed, b)));
  }

  // ----- all draws of one request -----

  function Plus(a: bv64, b: bv64): (r: bv64) { a + b }

  function Next(i: bv64): (r: bv64) { i + 1 }

  /** How far i steps take the state, and how many steps a way was. */
  function Way(i: bv64): (d: bv64) { i * 0x9E37_79B9_7F4A_7C15 }

  function StepsOf(d: bv64): (i: bv64) { d * 0xF1DE_83E1_9937_733D }

  /** The state behind draw number i, counted modulo 2^64. */
  function StateAt(seed: bv64, i: bv64): (s: bv64)
  {
    Plus(seed, Way(Next(i)))
  }

  lemma {:induction false} WayInverse(i: bv64)
    ensures StepsOf(Way(i)) == i
  {
    assert StepsOf(i * 0x9E37_79B9_7F4A_7C15) == i;
  }

  lemma {:induction false} WayStep(i: bv64)
    ensures Way(Next(i)) == Advance(Way(i))
  {
    assert Way(i + 1) == i * 0x9E37_79B9_7F4A_7C15 + 0x9E37_79B9_7F4A_7C15;
    assert Advance(i * 0x9E37_79B9_7F4A_7C15) == i * 0x9E37_79B9_7F4A_7C15 + 0x9E37_79B9_7F4A_7C15;
  }

  lemma {:induction false} AdvancePlus(a: bv64, b: bv64)
    ensures Advance(Plus(a, b)) == Plus(a, Advance(b))
  {
    assert Plus(a, b + 0x9E37_79B9_7F4A_7C15) == a + b + 0x9E37_79B9_7F4A_7C15;
    assert Advance(a + b) == a + b + 0x9E37_79B9_7F4A_7C15;
  }

  /** Draws follow one another as the code advances its state. */
  lemma {:induction false} StatesAdvance(seed: bv64, i: bv64)
    ensures StateAt(seed, Next(i)) == Advance(StateAt(seed, i))
  {
    WayStep(Next(i));
    AdvancePlus(seed, Way(Next(i)));
  }

  /** The first one comes from the advanced seed. */
  lemma {:induction false} FirstState(seed: bv64)
    ensures StateAt(seed, 0) == Advance(seed)
  {
  }

  function Minus(a: bv64, b: bv64): (r: bv64) { a - b }

  lemma {:induction false} PlusMinus(c: bv64, a: bv64)
    ensures Minus(Plus(c, a), c) == a
  {
    assert Minus(c + a, c) == a;
  }

  lemma {:induction false} PlusCancels(c: bv64, a: bv64, b: bv64)
    requires Plus(c, a) == Plus(c, b)
    ensures a == b
  {
    PlusMinus(c, a);
    PlusMinus(c, b);
  }

  lemma {:induction false} NextCancels(i: bv64, j: bv64)
    requires Next(i) == Next(j)
    ensures i == j
  {
  }

  lemma {:induction false} StatesAreDistinct(seed: bv64, i: bv64, j: bv64)
    requires StateAt(seed, i) == StateAt(seed, j)
    ensures i == j
  {
    PlusCancels(seed, Way(Next(i)), Way(Next(j)));
    WayInverse(Next(i));
    WayInverse(Next(j));
    NextCancels(i, j);
  }

  /** No two of the first 2^64 draws of a request are equal. */
  lemma {:induction false} DrawsOfOneRequestAreDistinct(seed: bv64, i: bv64, j: bv64)
    requires i != j
    ensures Mix(StateAt(seed, i)) != Mix(StateAt(seed, j))
  {
    var a, b := StateAt(seed, i), StateAt(seed, j);
    if a == b {
      StatesAreDistinct(seed, i, j);
    }
    MixIsBijective(a);
    MixIsBijective(b);
  }

  /** The first two outputs of the published generator for the seed 0. */
  lemma {:induction false} PublishedValues()
    ensures Mix(StateAt(0, 0)) == 0xE220_A839_7B1D_CDAF
    ensures Mix(StateAt(0, 1)) == 0x6E78_9E6A_A1B9_65F4
  {
  }
}
