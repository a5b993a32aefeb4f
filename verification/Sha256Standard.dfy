/** The digest's definition against the standard's words: the functions bit by
  * bit, the sums modulo 2^32 and the layout of bytes (FIPS 180-4, sections 2.2,
  * 3.2, 4.1.2, 5.1.1 and 6.2.2).
  */
module Sha256Standard {
  import opened Folds
  import opened HexText
  import opened Words
  import opened WordBits
  import opened Sha256
  import opened Sha256Theorems

  // ---- the six functions, bit by bit ----

  /** `x` chooses between `y` and `z`, at every place. */
  lemma ChooseBit(x: Word, y: Word, z: Word, i: nat)
    requires i < 32
    ensures Bit(Ch(x, y, z), i) <==> if Bit(x, i) then Bit(y, i) else Bit(z, i)
  {
    WordXorBit(And(x, y), And(Not(x), z), i);
    WordAndBit(x, y, i);
    WordAndBit(Not(x), z, i);
    NotBit(x, i);
  }

  /** At every place, the bit at least two of the three have. */
  lemma MajorityBit(x: Word, y: Word, z: Word, i: nat)
    ensures Bit(Maj(x, y, z), i) <==> Ones(x, y, z, i) >= 2
  {
    WordXorBit(Xor(And(x, y), And(x, z)), And(y, z), i);
    WordXorBit(And(x, y), And(x, z), i);
    WordAndBit(x, y, i);
    WordAndBit(x, z, i);
    WordAndBit(y, z, i);
  }

  function Ones(x: Word, y: Word, z: Word, i: nat): nat {
    (if Bit(x, i) then 1 else 0) + (if Bit(y, i) then 1 else 0) + (if Bit(z, i) then 1 else 0)
  }

  lemma ParityBit(x: Word, y: Word, z: Word, i: nat)
    ensures Bit(Xor(Xor(x, y), z), i) <==> Ones(x, y, z, i) % 2 == 1
  {
    WordXorBit(Xor(x, y), z, i);
    WordXorBit(x, y, i);
  }

  /** Which of the bits `a`, `b` and `c` places up, around the end, are set. */
  function OnesAbove(x: Word, a: nat, b: nat, c: nat, i: nat): nat {
    (if Bit(x, (i + a) % 32) then 1 else 0) + (if Bit(x, (i + b) % 32) then 1 else 0)
    + (if Bit(x, (i + c) % 32) then 1 else 0)
  }

  lemma ThreeRotations(x: Word, a: nat, b: nat, c: nat, i: nat)
    requires a <= 32 && b <= 32 && c <= 32 && i < 32
    ensures Bit(Xor(Xor(RotateRight(x, a), RotateRight(x, b)), RotateRight(x, c)), i) <==> OnesAbove(x, a, b, c, i) % 2 == 1
  {
    ParityBit(RotateRight(x, a), RotateRight(x, b), RotateRight(x, c), i);
    RotateRightBit(x, a, i);
    RotateRightBit(x, b, i);
    RotateRightBit(x, c, i);
  }

  lemma BigSigmaBits(x: Word, i: nat)
    requires i < 32
    ensures Bit(BigSigma0(x), i) <==> OnesAbove(x, 2, 13, 22, i) % 2 == 1
    ensures Bit(BigSigma1(x), i) <==> OnesAbove(x, 6, 11, 25, i) % 2 == 1
  {
    ThreeRotations(x, 2, 13, 22, i);
    ThreeRotations(x, 6, 11, 25, i);
  }

  /** The same with a shift, which brings in zeros. */
  function OnesAboveShifted(x: Word, a: nat, b: nat, c: nat, i: nat): nat {
    (if Bit(x, (i + a) % 32) then 1 else 0) + (if Bit(x, (i + b) % 32) then 1 else 0)
    + (if i + c < 32 && Bit(x, i + c) then 1 else 0)
  }

  lemma TwoRotationsAndAShift(x: Word, a: nat, b: nat, c: nat, i: nat)
    requires a <= 32 && b <= 32 && i < 32
    ensures Bit(Xor(Xor(RotateRight(x, a), RotateRight(x, b)), ShiftRight(x, c)), i) <==> OnesAboveShifted(x, a, b, c, i) % 2 == 1
  {
    ParityBit(RotateRight(x, a), RotateRight(x, b), ShiftRight(x, c), i);
    RotateRightBit(x, a, i);
    RotateRightBit(x, b, i);
    ShiftRightBit(x, c, i);
  }

  lemma SmallSigmaBits(x: Word, i: nat)
    requires i < 32
    ensures Bit(SmallSigma0(x), i) <==> OnesAboveShifted(x, 7, 18, 3, i) % 2 == 1
    ensures Bit(SmallSigma1(x), i) <==> OnesAboveShifted(x, 17, 19, 10, i) % 2 == 1
  {
    TwoRotationsAndAShift(x, 7, 18, 3, i);
    TwoRotationsAndAShift(x, 17, 19, 10, i);
  }

  // ---- the sums ----

  lemma FourSummed(x: Word, y: Word, z: Word, t: Word)
    ensures Plus(Plus(Plus(x, y), z), t) == (x + y + z + t) % MODULUS
  {
    PlusWraps(x + y, z);
    PlusWraps(x + y + z, t);
  }

  lemma FiveSummed(x: Word, y: Word, z: Word, t: Word, u: Word)
    ensures Plus(Plus(Plus(Plus(x, y), z), t), u) == (x + y + z + t + u) % MODULUS
  {
    FourSummed(x, y, z, t);
    PlusWraps(x + y + z + t, u);
  }

  lemma SumsAdd(x: int, y: int)
    ensures Plus(x % MODULUS, y % MODULUS) == (x + y) % MODULUS
  {
  }

  /** What the two sums of a round come to, modulo 2^32. */
  lemma RoundSums(s: State, k: Word, w: Word)
    ensures T1(s, k, w) == (s.h + BigSigma1(s.e) + Ch(s.e, s.f, s.g) + k + w) % MODULUS
    ensures T2(s) == (BigSigma0(s.a) + Maj(s.a, s.b, s.c)) % MODULUS
  {
    FiveSummed(s.h, BigSigma1(s.e), Ch(s.e, s.f, s.g), k, w);
  }

  /** The schedule repeats the block and goes on by sums modulo 2^32. */
  lemma ScheduleSums(block: Block, t: nat)
    ensures t < 16 ==> Schedule(block, t) == BlockWord(block, t)
    ensures t >= 16 ==>
              Schedule(block, t) == (SmallSigma1(Schedule(block, t - 2)) + Schedule(block, t - 7)
                                     + SmallSigma0(Schedule(block, t - 15)) + Schedule(block, t - 16)) % MODULUS
  {
    if t >= 16 {
      FourSummed(SmallSigma1(Schedule(block, t - 2)), Schedule(block, t - 7),
                 SmallSigma0(Schedule(block, t - 15)), Schedule(block, t - 16));
    }
  }

  /** Compressing a block can be undone by whoever knows the hash value it
    * started from: take it off again and run the rounds backwards. */
  lemma CompressionUndone(s: State, block: Block)
    ensures Unfold(UnroundOn, Subtract(Compress(s, block), s), Inputs(block)) == s
  {
    var rounds := Fold(RoundOn, s, Inputs(block));
    AddThenSubtract(rounds, s);
    RoundsAreABijection(s, block);
  }

  function Subtract(s: State, t: State): State {
    State(Minus(s.a, t.a), Minus(s.b, t.b), Minus(s.c, t.c), Minus(s.d, t.d),
          Minus(s.e, t.e), Minus(s.f, t.f), Minus(s.g, t.g), Minus(s.h, t.h))
  }

  lemma AddThenSubtract(s: State, t: State)
    ensures Subtract(Add(s, t), t) == s
  {
    PlusThenMinus(s.a, t.a);
    PlusThenMinus(s.b, t.b);
    PlusThenMinus(s.c, t.c);
    PlusThenMinus(s.d, t.d);
    PlusThenMinus(s.e, t.e);
    PlusThenMinus(s.f, t.f);
    PlusThenMinus(s.g, t.g);
    PlusThenMinus(s.h, t.h);
  }

  /** A message that fits one block with its padding is compressed once, from
    * the starting value. */
  lemma DigestOfOneBlock(message: seq<Byte>)
    requires |message| < 56
    ensures |Pad(message)| == 64 && Digest(message) == Compress(INITIAL_HASH, Pad(message))
  {
    var bytes := Pad(message);
    assert |bytes| == 64;
    assert BlockAt(bytes, 0) == bytes;
    var blocks: seq<Block> := [bytes];
    assert Blocks(bytes) == blocks;
    assert blocks[..0] == [] && HashBlocks(INITIAL_HASH, blocks[..0]) == INITIAL_HASH;
  }

  /** A longer one goes on from where its first blocks left off. */
  lemma DigestGoesOn(p: seq<Byte>, q: seq<Byte>)
    requires |p| % 64 == 0
    ensures Pad(p + q)[..|p|] == p
    ensures Digest(p + q) == HashBlocks(HashBlocks(INITIAL_HASH, Blocks(p)), Blocks(Pad(p + q)[|p|..]))
  {
    var bytes := Pad(p + q);
    assert bytes[..|p|] == p && bytes == p + bytes[|p|..];
    HashingComposes(INITIAL_HASH, p, bytes[|p|..]);
  }

  // ---- bytes, words and blocks ----

  /** The number these bytes write, most significant first. */
  function FromBytes(bytes: seq<Byte>): nat {
    if bytes == [] then 0 else 256 * FromBytes(bytes[..|bytes| - 1]) + bytes[|bytes| - 1]
  }

  function Pow256(n: nat): nat {
    if n == 0 then 1 else 256 * Pow256(n - 1)
  }

  lemma {:induction false} BigEndianReadsBack(x: nat, n: nat)
    requires x < Pow256(n)
    ensures FromBytes(BigEndian(x, n)) == x
  {
    if n > 0 {
      BigEndianReadsBack(x / 256, n - 1);
      assert BigEndian(x, n)[..n - 1] == BigEndian(x / 256, n - 1);
    }
  }

  /** Each word of a block is its four bytes, most significant first. */
  lemma BlockWordReads(block: Block, t: nat)
    requires t < 16
    ensures BigEndian(BlockWord(block, t), 4) == block[4 * t..4 * t + 4]
  {
    var (b0, b1, b2, b3) := (block[4 * t], block[4 * t + 1], block[4 * t + 2], block[4 * t + 3]);
    FourBytes(b0, b1, b2, b3);
    assert block[4 * t..4 * t + 4] == [b0, b1, b2, b3];
  }

  lemma FourBytes(b0: Byte, b1: Byte, b2: Byte, b3: Byte)
    ensures BigEndian(b0 * 0x100_0000 + b1 * 0x1_0000 + b2 * 0x100 + b3, 4) == [b0, b1, b2, b3]
  {
    var (x2, x3) := (b0 * 0x100 + b1, b0 * 0x1_0000 + b1 * 0x100 + b2);
    assert BigEndian(b0, 1) == [] + [b0];
    assert BigEndian(x2, 2) == BigEndian(b0, 1) + [b1];
    assert BigEndian(x3, 3) == BigEndian(x2, 2) + [b2];
    assert BigEndian(x3 * 0x100 + b3, 4) == BigEndian(x3, 3) + [b3];
  }

  /** The blocks are the bytes, sixty-four at a time. */
  lemma BlocksAreTheBytes(bytes: seq<Byte>, i: nat)
    requires |bytes| % 64 == 0 && i < |bytes|
    ensures |Blocks(bytes)| * 64 == |bytes|
    ensures Blocks(bytes)[i / 64][i % 64] == bytes[i]
  {
    assert i / 64 < |bytes| / 64;
  }

  /** A padded message is the message, the end mark, zeros, and its length in
    * bits. */
  lemma PaddedParts(message: seq<Byte>)
    requires |message| < LENGTH_LIMIT
    ensures var (n, last) := (|message|, |Pad(message)| - 8);
            && n < last && Pad(message)[..n] == message && Pad(message)[n] == 0x80
            && (forall i | n < i < last :: Pad(message)[i] == 0)
            && FromBytes(Pad(message)[last..]) == 8 * n
  {
    var (zeros, length) := (Zeros(ZeroCount(|message|)), BigEndian(|message| * 8, 8));
    assert Pad(message)[|Pad(message)| - 8..] == length;
    assert Pow256(4) == 0x1_0000_0000;
    assert Pow256(8) == 0x1_0000_0000_0000_0000;
    BigEndianReadsBack(|message| * 8, 8);
  }

  lemma EightParts(a: string, b: string, c: string, d: string, rest: string)
    requires |a| == |b| == |c| == |d| == 8
    ensures var text := a + (b + (c + (d + rest)));
            && |text| == 32 + |rest| && text[32..] == rest
            && text[0..8] == a && text[8..16] == b && text[16..24] == c && text[24..32] == d
  {
  }

  /** The hex text, eight digits a word, reads back as the hash value. */
  lemma HexStateReadsBack(s: State)
    ensures var text := HexState(s);
            && |text| == 64
            && [Unhex(text[0..8]), Unhex(text[8..16]), Unhex(text[16..24]), Unhex(text[24..32])] == [s.a, s.b, s.c, s.d]
            && [Unhex(text[32..][0..8]), Unhex(text[32..][8..16]), Unhex(text[32..][16..24]), Unhex(text[32..][24..32])]
               == [s.e, s.f, s.g, s.h]
  {
    var rest := HexWord(s.e) + (HexWord(s.f) + (HexWord(s.g) + HexWord(s.h)));
    assert HexWord(s.h) == HexWord(s.h) + "";
    EightParts(HexWord(s.e), HexWord(s.f), HexWord(s.g), HexWord(s.h), "");
    EightParts(HexWord(s.a), HexWord(s.b), HexWord(s.c), HexWord(s.d), rest);
    WordReadsBack(s.a);
    WordReadsBack(s.b);
    WordReadsBack(s.c);
    WordReadsBack(s.d);
    WordReadsBack(s.e);
    WordReadsBack(s.f);
    WordReadsBack(s.g);
    WordReadsBack(s.h);
  }

  lemma WordReadsBack(x: Word)
    ensures |HexWord(x)| == 8 && Unhex(HexWord(x)) == x
  {
    WordFitsEightDigits();
    HexReadsBack(x, 8);
  }
}
