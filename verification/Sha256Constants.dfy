/** Where the constants of the digest come from: the roots of the first primes
  * (FIPS 180-4, sections 4.2.2 and 5.3.3).
  */
module Sha256Constants {
  import opened Words
  import opened Sha256

  // ---- the first 64 primes ----

  const P0: seq<nat> := [2, 3, 5, 7, 11, 13, 17, 19]
  const P8: seq<nat> := [23, 29, 31, 37, 41, 43, 47, 53]
  const P16: seq<nat> := [59, 61, 67, 71, 73, 79, 83, 89]
  const P24: seq<nat> := [97, 101, 103, 107, 109, 113, 127, 131]
  const P32: seq<nat> := [137, 139, 149, 151, 157, 163, 167, 173]
  const P40: seq<nat> := [179, 181, 191, 193, 197, 199, 211, 223]
  const P48: seq<nat> := [227, 229, 233, 239, 241, 251, 257, 263]
  const P56: seq<nat> := [269, 271, 277, 281, 283, 293, 307, 311]

  const FIRST_PRIMES := P0 + P8 + P16 + P24 + P32 + P40 + P48 + P56

  // ---- their roots ----

  function Cube(x: nat): nat { x * x * x }

  function Square(x: nat): nat { x * x }

  predicate CubeRootIs(prime: nat, whole: nat, bits: Word) {
    Cube(whole * MODULUS + bits) <= prime * Cube(MODULUS) < Cube(whole * MODULUS + bits + 1)
  }

  predicate SquareRootIs(prime: nat, whole: nat, bits: Word) {
    Square(whole * MODULUS + bits) <= prime * Square(MODULUS) < Square(whole * MODULUS + bits + 1)
  }

  /** The word holds the first 32 bits after the point of the cube root. */
  ghost predicate FromCubeRoot(prime: nat, bits: Word) {
    exists whole: nat :: CubeRootIs(prime, whole, bits)
  }

  ghost predicate FromCubeRoots(primes: seq<nat>, words: seq<Word>) {
    |words| == |primes| && forall t | 0 <= t < |words| :: FromCubeRoot(primes[t], words[t])
  }

  lemma RootsJoin(p: seq<nat>, a: seq<Word>, q: seq<nat>, b: seq<Word>)
    requires FromCubeRoots(p, a) && FromCubeRoots(q, b)
    ensures FromCubeRoots(p + q, a + b)
  {
  }

  lemma EightRoots(p: seq<nat>, w: seq<nat>, k: seq<Word>)
    requires |p| == |w| == |k| == 8
    requires CubeRootIs(p[0], w[0], k[0]) && CubeRootIs(p[1], w[1], k[1]) && CubeRootIs(p[2], w[2], k[2])
    requires CubeRootIs(p[3], w[3], k[3]) && CubeRootIs(p[4], w[4], k[4]) && CubeRootIs(p[5], w[5], k[5])
    requires CubeRootIs(p[6], w[6], k[6]) && CubeRootIs(p[7], w[7], k[7])
    ensures FromCubeRoots(p, k)
  {
  }

  lemma CubeRoots0()
    ensures FromCubeRoots(P0, K0)
  {
    EightRoots(P0, [1, 1, 1, 1, 2, 2, 2, 2], K0);
  }

  lemma CubeRoots8()
    ensures FromCubeRoots(P8, K8)
  {
    EightRoots(P8, [2, 3, 3, 3, 3, 3, 3, 3], K8);
  }

  lemma CubeRoots16()
    ensures FromCubeRoots(P16, K16)
  {
    EightRoots(P16, [3, 3, 4, 4, 4, 4, 4, 4], K16);
  }

  lemma CubeRoots24()
    ensures FromCubeRoots(P24, K24)
  {
    EightRoots(P24, [4, 4, 4, 4, 4, 4, 5, 5], K24);
  }

  lemma CubeRoots32()
    ensures FromCubeRoots(P32, K32)
  {
    EightRoots(P32, [5, 5, 5, 5, 5, 5, 5, 5], K32);
  }

  lemma CubeRoots40()
    ensures FromCubeRoots(P40, K40)
  {
    EightRoots(P40, [5, 5, 5, 5, 5, 5, 5, 6], K40);
  }

  lemma CubeRoots48()
    ensures FromCubeRoots(P48, K48)
  {
    EightRoots(P48, [6, 6, 6, 6, 6, 6, 6, 6], K48);
  }

  lemma CubeRoots56()
    ensures FromCubeRoots(P56, K56)
  {
    EightRoots(P56, [6, 6, 6, 6, 6, 6, 6, 6], K56);
  }

  /** The round constants are the first 32 bits after the point of the cube roots
    * of the first 64 primes. */
  lemma RoundConstantsAreCubeRoots()
    ensures FromCubeRoots(FIRST_PRIMES, K)
  {
    CubeRoots0();
    var (primes, words) := (P0, K0);
    CubeRoots8();
    RootsJoin(primes, words, P8, K8);
    primes, words := primes + P8, words + K8;
    CubeRoots16();
    RootsJoin(primes, words, P16, K16);
    primes, words := primes + P16, words + K16;
    CubeRoots24();
    RootsJoin(primes, words, P24, K24);
    primes, words := primes + P24, words + K24;
    CubeRoots32();
    RootsJoin(primes, words, P32, K32);
    primes, words := primes + P32, words + K32;
    CubeRoots40();
    RootsJoin(primes, words, P40, K40);
    primes, words := primes + P40, words + K40;
    CubeRoots48();
    RootsJoin(primes, words, P48, K48);
    primes, words := primes + P48, words + K48;
    CubeRoots56();
    RootsJoin(primes, words, P56, K56);
    primes, words := primes + P56, words + K56;
  }

  /** The hash starts from the first 32 bits after the point of the square roots
    * of the first eight primes. */
  lemma InitialHashIsSquareRoots()
    ensures var h := INITIAL_HASH;
            && SquareRootIs(2, 1, h.a)
            && SquareRootIs(3, 1, h.b)
            && SquareRootIs(5, 2, h.c)
            && SquareRootIs(7, 2, h.d)
            && SquareRootIs(11, 3, h.e)
            && SquareRootIs(13, 3, h.f)
            && SquareRootIs(17, 4, h.g)
            && SquareRootIs(19, 4, h.h)
  {
  }
}
