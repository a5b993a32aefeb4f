/** `sha256_hex` and `sha256` of crates/workspace-engine/src/hash.rs, loops and
  * in-place arrays included, proved against `Sha256`.
  */
module Sha256Imperative {
  import opened Folds
  import opened Sha256
  import opened Words

  /** The code adds the schedule's four words in the opposite order. */
  lemma ScheduleStep(block: Block, t: nat, s0: Word, s1: Word)
    requires 16 <= t
    requires s0 == SmallSigma0(Schedule(block, t - 15)) && s1 == SmallSigma1(Schedule(block, t - 2))
    ensures Plus(Plus(Plus(Schedule(block, t - 16), s0), Schedule(block, t - 7)), s1) == Schedule(block, t)
  {
    SumReversed(Schedule(block, t - 16), s0, Schedule(block, t - 7), s1);
  }

  /** The message schedule, filled in place. */
  method FillSchedule(chunk: Block, w: array<Word>)
    requires w.Length == 64
    modifies w
    ensures forall t: nat {:trigger w[t]} | t < 64 :: w[t] == Schedule(chunk, t)
  {
    for index := 0 to 16
      invariant forall t: nat {:trigger w[t]} | t < index :: w[t] == Schedule(chunk, t)
    {
      w[index] := BlockWord(chunk, index);
    }
    for index := 16 to 64
      invariant forall t: nat {:trigger w[t]} | t < index :: w[t] == Schedule(chunk, t)
    {
      var x, y := w[index - 15], w[index - 2];
      var s0 := Xor(Xor(RotateRight(x, 7), RotateRight(x, 18)), ShiftRight(x, 3));
      var s1 := Xor(Xor(RotateRight(y, 17), RotateRight(y, 19)), ShiftRight(y, 10));
      ScheduleStep(chunk, index, s0, s1);
      w[index] := Plus(Plus(Plus(w[index - 16], s0), w[index - 7]), s1);
    }
  }

  lemma OneMoreRound(s: State, xs: seq<Input>, k: nat)
    requires k < |xs|
    ensures Fold(RoundOn, s, xs[..k + 1]) == RoundOn(Fold(RoundOn, s, xs[..k]), xs[k])
  {
    assert xs[..k + 1][..k] == xs[..k];
  }

  /** The 64 rounds over the eight working variables. */
  method RunRounds(s: State, chunk: Block, w: array<Word>) returns (r: State)
    requires w.Length == 64
    requires forall t: nat {:trigger w[t]} | t < 64 :: w[t] == Schedule(chunk, t)
    ensures r == Fold(RoundOn, s, Inputs(chunk))
  {
    ghost var xs := Inputs(chunk);
    var a, b, c, d, e, f, g, hh := s.a, s.b, s.c, s.d, s.e, s.f, s.g, s.h;
    for index := 0 to 64
      invariant State(a, b, c, d, e, f, g, hh) == Fold(RoundOn, s, xs[..index])
    {
      ghost var before := State(a, b, c, d, e, f, g, hh);
      OneMoreRound(s, xs, index);
      var s1 := Xor(Xor(RotateRight(e, 6), RotateRight(e, 11)), RotateRight(e, 25));
      var ch := Xor(And(e, f), And(Not(e), g));
      var temp1 := Plus(Plus(Plus(Plus(hh, s1), ch), K[index]), w[index]);
      var s0 := Xor(Xor(RotateRight(a, 2), RotateRight(a, 13)), RotateRight(a, 22));
      var maj := Xor(Xor(And(a, b), And(a, c)), And(b, c));
      var temp2 := Plus(s0, maj);
      assert temp1 == T1(before, K[index], w[index]) && temp2 == T2(before);
      hh := g;
      g := f;
      f := e;
      e := Plus(d, temp1);
      d := c;
      c := b;
      b := a;
      a := Plus(temp1, temp2);
      assert State(a, b, c, d, e, f, g, hh) == Round(before, K[index], w[index]);
    }
    assert xs[..64] == xs;
    r := State(a, b, c, d, e, f, g, hh);
  }

  function StateOf(h: seq<Word>): State
    requires |h| == 8
  {
    State(h[0], h[1], h[2], h[3], h[4], h[5], h[6], h[7])
  }

  lemma AddCommutes(s: State, t: State)
    ensures Add(s, t) == Add(t, s)
  {
  }

  /** The feed-forward, word by word into the running hash. */
  method FeedForward(h: array<Word>, r: State)
    requires h.Length == 8
    modifies h
    ensures StateOf(h[..]) == Add(StateOf(old(h[..])), r)
  {
    h[0] := Plus(h[0], r.a);
    h[1] := Plus(h[1], r.b);
    h[2] := Plus(h[2], r.c);
    h[3] := Plus(h[3], r.d);
    h[4] := Plus(h[4], r.e);
    h[5] := Plus(h[5], r.f);
    h[6] := Plus(h[6], r.g);
    h[7] := Plus(h[7], r.h);
  }

  /** The end mark, then zeros until eight bytes are left in the block, then the
    * bit length: the standard's padding. */
  method PadInput(input: seq<Byte>) returns (bytes: seq<Byte>)
    requires |input| < LENGTH_LIMIT
    ensures bytes == Pad(input)
  {
    var bitLen := |input| * 8;
    bytes := input + [0x80];
    ghost var zeros := 0;
    ZerosReach(|input|);
    while |bytes| % 64 != 56
      invariant zeros <= ZeroCount(|input|) && bytes == input + [0x80] + Zeros(zeros)
      decreases ZeroCount(|input|) - zeros
    {
      assert Zeros(zeros) + [0] == Zeros(zeros + 1);
      bytes := bytes + [0];
      zeros := zeros + 1;
    }
    FewestZeros(|input|, zeros);
    bytes := bytes + BigEndian(bitLen, 8);
  }

  /** One block into the running hash. */
  method AbsorbBlock(h: array<Word>, w: array<Word>, chunk: Block)
    requires h.Length == 8 && w.Length == 64 && h != w
    modifies h, w
    ensures StateOf(h[..]) == Compress(StateOf(old(h[..])), chunk)
  {
    FillSchedule(chunk, w);
    var r := RunRounds(StateOf(h[..]), chunk, w);
    AddCommutes(StateOf(h[..]), r);
    FeedForward(h, r);
  }

  lemma OneMoreBlock(s: State, blocks: seq<Block>, k: nat)
    requires k < |blocks|
    ensures HashBlocks(s, blocks[..k + 1]) == Compress(HashBlocks(s, blocks[..k]), blocks[k])
  {
    assert blocks[..k + 1][..k] == blocks[..k];
  }

  /** Every block into the running hash, in order. */
  method AbsorbBlocks(h: array<Word>, w: array<Word>, bytes: seq<Byte>)
    requires h.Length == 8 && w.Length == 64 && h != w
    modifies h, w
    ensures StateOf(h[..]) == HashBlocks(StateOf(old(h[..])), Blocks(bytes))
  {
    ghost var (blocks, start) := (Blocks(bytes), StateOf(h[..]));
    for chunk := 0 to |bytes| / 64
      invariant StateOf(h[..]) == HashBlocks(start, blocks[..chunk])
    {
      OneMoreBlock(start, blocks, chunk);
      AbsorbBlock(h, w, BlockAt(bytes, chunk));
    }
    assert blocks[..|bytes| / 64] == blocks;
  }

  /** `sha256_hex`: the hex of the standard's digest. */
  method Sha256Hex(input: seq<Byte>) returns (hex: string)
    requires |input| < LENGTH_LIMIT
    ensures hex == HexState(Digest(input))
  {
    var h := new Word[] [INITIAL_HASH.a, INITIAL_HASH.b, INITIAL_HASH.c, INITIAL_HASH.d,
                         INITIAL_HASH.e, INITIAL_HASH.f, INITIAL_HASH.g, INITIAL_HASH.h];
    assert StateOf(h[..]) == INITIAL_HASH;
    var bytes := PadInput(input);
    var w := new Word[64];
    AbsorbBlocks(h, w, bytes);
    hex := HexState(StateOf(h[..]));
  }

  /** `sha256`: the digest with its algorithm in front. */
  method PrefixedSha256(input: seq<Byte>) returns (text: string)
    requires |input| < LENGTH_LIMIT
    ensures text == Sha256Text(input)
  {
    var hex := Sha256Hex(input);
    text := "sha256:" + hex;
  }
}
