/** SHA-256 as FIPS 180-4 defines it, and the imperative version of
  * crates/workspace-engine/src/hash.rs proved to compute it.
  */
module Sha256 {
  import opened Folds
  import opened HexText
  import opened Words

  type Byte = b: int | 0 <= b < 256
  const LENGTH_LIMIT := 0x2000_0000_0000_0000  // 2^61 bytes: 2^64 bits

  // ---- the standard: functions and constants (sections 4.1.2, 4.2.2, 5.3.3) ----

  function Ch(x: Word, y: Word, z: Word): Word { Xor(And(x, y), And(Not(x), z)) }

  function Maj(x: Word, y: Word, z: Word): Word { Xor(Xor(And(x, y), And(x, z)), And(y, z)) }

  function BigSigma0(x: Word): Word { Xor(Xor(RotateRight(x, 2), RotateRight(x, 13)), RotateRight(x, 22)) }

  function BigSigma1(x: Word): Word { Xor(Xor(RotateRight(x, 6), RotateRight(x, 11)), RotateRight(x, 25)) }

  function SmallSigma0(x: Word): Word { Xor(Xor(RotateRight(x, 7), RotateRight(x, 18)), ShiftRight(x, 3)) }

  function SmallSigma1(x: Word): Word { Xor(Xor(RotateRight(x, 17), RotateRight(x, 19)), ShiftRight(x, 10)) }

  const K0: seq<Word> := [0x428a2f98, 0x71374491, 0xb5c0fbcf, 0xe9b5dba5,
                        0x3956c25b, 0x59f111f1, 0x923f82a4, 0xab1c5ed5]
  const K8: seq<Word> := [0xd807aa98, 0x12835b01, 0x243185be, 0x550c7dc3,
                        0x72be5d74, 0x80deb1fe, 0x9bdc06a7, 0xc19bf174]
  const K16: seq<Word> := [0xe49b69c1, 0xefbe4786, 0x0fc19dc6, 0x240ca1cc,
                        0x2de92c6f, 0x4a7484aa, 0x5cb0a9dc, 0x76f988da]
  const K24: seq<Word> := [0x983e5152, 0xa831c66d, 0xb00327c8, 0xbf597fc7,
                        0xc6e00bf3, 0xd5a79147, 0x06ca6351, 0x14292967]
  const K32: seq<Word> := [0x27b70a85, 0x2e1b2138, 0x4d2c6dfc, 0x53380d13,
                        0x650a7354, 0x766a0abb, 0x81c2c92e, 0x92722c85]
  const K40: seq<Word> := [0xa2bfe8a1, 0xa81a664b, 0xc24b8b70, 0xc76c51a3,
                        0xd192e819, 0xd6990624, 0xf40e3585, 0x106aa070]
  const K48: seq<Word> := [0x19a4c116, 0x1e376c08, 0x2748774c, 0x34b0bcb5,
                        0x391c0cb3, 0x4ed8aa4a, 0x5b9cca4f, 0x682e6ff3]
  const K56: seq<Word> := [0x748f82ee, 0x78a5636f, 0x84c87814, 0x8cc70208,
                        0x90befffa, 0xa4506ceb, 0xbef9a3f7, 0xc67178f2]
  const K: seq<Word> := K0 + K8 + K16 + K24 + K32 + K40 + K48 + K56

  /** The eight working variables, and the intermediate hash value. */
  datatype State = State(a: Word, b: Word, c: Word, d: Word, e: Word, f: Word, g: Word, h: Word)

  const INITIAL_HASH := State(
    0x6a09e667, 0xbb67ae85, 0x3c6ef372, 0xa54ff53a, 0x510e527f, 0x9b05688c, 0x1f83d9ab, 0x5be0cd19)

  // ---- the standard: padding (section 5.1.1) ----

  /** The number of zero bytes between the end mark and the length. */
  function ZeroCount(length: nat): nat {
    (55 - length) % 64
  }

  function Zeros(n: nat): seq<Byte> {
    seq(n, _ => 0)
  }

  /** The low `n` bytes of `x`, most significant first. */
  function BigEndian(x: nat, n: nat): (bytes: seq<Byte>)
    ensures |bytes| == n
  {
    if n == 0 then [] else BigEndian(x / 256, n - 1) + [x % 256]
  }

  function Pad(message: seq<Byte>): seq<Byte> {
    message + [0x80] + Zeros(ZeroCount(|message|)) + BigEndian(|message| * 8, 8)
  }

  // ---- the standard: schedule, rounds, hash (section 6.2.2) ----

  type Block = b: seq<Byte> | |b| == 64 witness Zeros(64)

  function BlockWord(block: Block, t: nat): Word
    requires t < 16
  {
    var b0: int, b1: int, b2: int, b3: int := block[4 * t], block[4 * t + 1], block[4 * t + 2], block[4 * t + 3];
    b0 * 0x100_0000 + b1 * 0x1_0000 + b2 * 0x100 + b3
  }

  function Schedule(block: Block, t: nat): Word {
    if t < 16 then BlockWord(block, t)
    else Plus(Plus(Plus(SmallSigma1(Schedule(block, t - 2)), Schedule(block, t - 7)),
                   SmallSigma0(Schedule(block, t - 15))), Schedule(block, t - 16))
  }

  function T1(s: State, k: Word, w: Word): Word {
    Plus(Plus(Plus(Plus(s.h, BigSigma1(s.e)), Ch(s.e, s.f, s.g)), k), w)
  }

  function T2(s: State): Word {
    Plus(BigSigma0(s.a), Maj(s.a, s.b, s.c))
  }

  function Round(s: State, k: Word, w: Word): State {
    State(Plus(T1(s, k, w), T2(s)), s.a, s.b, s.c, Plus(s.d, T1(s, k, w)), s.e, s.f, s.g)
  }

  /** What one round consumes: its constant and its schedule word. */
  type Input = (Word, Word)

  function RoundOn(s: State, x: Input): State {
    Round(s, x.0, x.1)
  }

  function Inputs(block: Block): (xs: seq<Input>)
    ensures |xs| == |K|
  {
    seq(|K|, t requires 0 <= t < |K| => (K[t], Schedule(block, t)))
  }

  function Add(s: State, t: State): State {
    State(Plus(s.a, t.a), Plus(s.b, t.b), Plus(s.c, t.c), Plus(s.d, t.d),
          Plus(s.e, t.e), Plus(s.f, t.f), Plus(s.g, t.g), Plus(s.h, t.h))
  }

  function Compress(s: State, block: Block): State {
    Add(Fold(RoundOn, s, Inputs(block)), s)
  }

  function BlockAt(bytes: seq<Byte>, i: nat): Block
    requires 64 * (i + 1) <= |bytes|
  {
    bytes[64 * i..64 * (i + 1)]
  }

  function Blocks(bytes: seq<Byte>): seq<Block> {
    seq(|bytes| / 64, i requires 0 <= i < |bytes| / 64 => BlockAt(bytes, i))
  }

  /** The hash value after these blocks. */
  function HashBlocks(s: State, blocks: seq<Block>): State {
    Fold(Compress, s, blocks)
  }

  function HexWord(x: Word): string {
    Hex(x, 8)
  }

  function HexState(s: State): string {
    HexWord(s.a) + (HexWord(s.b) + (HexWord(s.c) + (HexWord(s.d)
    + (HexWord(s.e) + (HexWord(s.f) + (HexWord(s.g) + HexWord(s.h)))))))
  }

  function Digest(message: seq<Byte>): State {
    HashBlocks(INITIAL_HASH, Blocks(Pad(message)))
  }

  /** The digest as the engine stores it. */
  function Sha256Text(message: seq<Byte>): string {
    "sha256:" + HexState(Digest(message))
  }

  // ---- padding ----

  lemma ZerosReach(length: nat)
    ensures (length + 1 + ZeroCount(length)) % 64 == 56
  {
  }

  /** Padding fills whole blocks. */
  lemma PadLength(message: seq<Byte>)
    ensures |Pad(message)| % 64 == 0
  {
    var (n, q) := (|message|, (55 - |message|) / 64);
    assert ZeroCount(n) == 55 - n - 64 * q;
    assert |Pad(message)| == 64 * (1 - q);
  }

  /** No shorter run of zeros reaches the length field's place. */
  lemma FewestZeros(length: nat, zeros: nat)
    requires (length + 1 + zeros) % 64 == 56
    ensures ZeroCount(length) <= zeros
  {
    assert 55 - length == zeros + 64 * (0 - (length + 1 + zeros) / 64);
  }
}
