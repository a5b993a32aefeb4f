/** What SHA-256 as computed here is good for: reversible rounds, padding that
  * keeps messages apart, hashing block by block, and digests that can be read
  * back from their hex. */
module Sha256Theorems {
  import opened Folds
  import opened HexText
  import opened Words
  import opened Sha256

  // ---- the rounds lose nothing ----

  /** The round with every addition subtracted again. */
  function Unround(s: State, k: Word, w: Word): State {
    var t2 := Plus(BigSigma0(s.b), Maj(s.b, s.c, s.d));
    var t1 := Minus(s.a, t2);
    var h := Minus(Minus(Minus(Minus(t1, w), k), Ch(s.f, s.g, s.h)), BigSigma1(s.f));
    State(s.b, s.c, s.d, Minus(s.e, t1), s.f, s.g, s.h, h)
  }

  /** For a fixed constant and schedule word one round is a bijection on the
    * eight working variables. */
  lemma RoundIsABijection(s: State, k: Word, w: Word)
    ensures Unround(Round(s, k, w), k, w) == s
    ensures Round(Unround(s, k, w), k, w) == s
  {
    UnroundAfterRound(s, k, w);
    RoundAfterUnround(s, k, w);
  }

  lemma UnroundAfterRound(s: State, k: Word, w: Word)
    ensures Unround(Round(s, k, w), k, w) == s
  {
    var sum1 := Plus(s.h, BigSigma1(s.e));
    var sum2 := Plus(sum1, Ch(s.e, s.f, s.g));
    var sum3 := Plus(sum2, k);
    PlusThenMinus(s.h, BigSigma1(s.e));
    PlusThenMinus(sum1, Ch(s.e, s.f, s.g));
    PlusThenMinus(sum2, k);
    PlusThenMinus(sum3, w);
    PlusThenMinus(T1(s, k, w), T2(s));
    PlusThenMinus(s.d, T1(s, k, w));
  }

  lemma RoundAfterUnround(s: State, k: Word, w: Word)
    ensures Round(Unround(s, k, w), k, w) == s
  {
    var t2 := Plus(BigSigma0(s.b), Maj(s.b, s.c, s.d));
    var t1 := Minus(s.a, t2);
    var m1 := Minus(t1, w);
    var m2 := Minus(m1, k);
    var m3 := Minus(m2, Ch(s.f, s.g, s.h));
    PlusThenMinus(s.a, t2);
    PlusThenMinus(t1, w);
    PlusThenMinus(m1, k);
    PlusThenMinus(m2, Ch(s.f, s.g, s.h));
    PlusThenMinus(m3, BigSigma1(s.f));
    PlusThenMinus(s.e, t1);
  }

  function UnroundOn(s: State, x: Input): State {
    Unround(s, x.0, x.1)
  }

  /** Before the feed-forward the 64 rounds over any block are a bijection. */
  lemma RoundsAreABijection(s: State, block: Block)
    ensures Unfold(UnroundOn, Fold(RoundOn, s, Inputs(block)), Inputs(block)) == s
    ensures Fold(RoundOn, Unfold(UnroundOn, s, Inputs(block)), Inputs(block)) == s
  {
    forall t, x: Input
      ensures UnroundOn(RoundOn(t, x), x) == t && RoundOn(UnroundOn(t, x), x) == t
    {
      RoundIsABijection(t, x.0, x.1);
    }
    FoldIsABijection(RoundOn, UnroundOn, s, Inputs(block));
  }

  // ---- block by block ----

  lemma BlockBehind(p: seq<Byte>, q: seq<Byte>, blocks: nat, k: nat)
    requires |p| == 64 * blocks && 64 * (k + 1) <= |q|
    ensures 64 * (blocks + k + 1) <= |p + q| && BlockAt(p + q, blocks + k) == BlockAt(q, k)
  {
    assert 64 * (blocks + k) == |p| + 64 * k;
    assert (p + q)[|p| + 64 * k..|p| + 64 * (k + 1)] == q[64 * k..64 * (k + 1)];
  }

  /** Hashing `p ++ q` is hashing `q` from where `p` left off. */
  lemma HashingComposes(s: State, p: seq<Byte>, q: seq<Byte>)
    requires |p| % 64 == 0
    ensures HashBlocks(s, Blocks(p + q)) == HashBlocks(HashBlocks(s, Blocks(p)), Blocks(q))
  {
    var (both, first, second) := (Blocks(p + q), Blocks(p), Blocks(q));
    assert |p| == 64 * |first| && |both| == |first| + |second|;
    forall i | 0 <= i < |both|
      ensures both[i] == (first + second)[i]
    {
      if i < |first| {
        assert BlockAt(p + q, i) == BlockAt(p, i);
      } else {
        BlockBehind(p, q, |first|, i - |first|);
      }
    }
    assert both == first + second;
    FoldComposes(Compress, s, Blocks(p), Blocks(q));
  }

  // ---- padding keeps messages apart ----

  lemma LastTwoBytes(x: nat, n: nat)
    requires n >= 2
    ensures BigEndian(x, n)[n - 1] == x % 256 && BigEndian(x, n)[n - 2] == x / 256 % 256
  {
    assert BigEndian(x, n) == BigEndian(x / 256, n - 1) + [x % 256];
    assert BigEndian(x / 256, n - 1) == BigEndian(x / 256 / 256, n - 2) + [x / 256 % 256];
  }

  /** Two messages that pad to the same bytes are the same message. */
  lemma PaddingIsInjective(m: seq<Byte>, n: seq<Byte>)
    requires Pad(m) == Pad(n)
    ensures m == n
  {
    var last := |Pad(m)|;
    LastTwoBytes(|m| * 8, 8);
    LastTwoBytes(|n| * 8, 8);
    assert Pad(m)[last - 1] == |m| * 8 % 256 && Pad(m)[last - 2] == |m| * 8 / 256 % 256;
    assert Pad(n)[last - 1] == |n| * 8 % 256 && Pad(n)[last - 2] == |n| * 8 / 256 % 256;
    CloseNumbersWithEqualBytes(|m| * 8, |n| * 8);
    assert m == Pad(m)[..|m|];
    assert n == Pad(n)[..|n|];
  }

  lemma CloseNumbersWithEqualBytes(x: nat, y: nat)
    requires -0x1_0000 < x - y < 0x1_0000 && x % 256 == y % 256 && x / 256 % 256 == y / 256 % 256
    ensures x == y
  {
    assert x == x / 256 / 256 * 0x1_0000 + x / 256 % 256 * 256 + x % 256;
    assert y == y / 256 / 256 * 0x1_0000 + y / 256 % 256 * 256 + y % 256;
  }

  // ---- the digest as text ----

  lemma WordFitsEightDigits()
    ensures Pow16(8) == MODULUS
  {
    assert Pow16(4) == 0x1_0000;
  }

  lemma HexWordIsInjective(x: Word, y: Word)
    ensures HexWord(x) == HexWord(y) ==> x == y
  {
    WordFitsEightDigits();
    HexReadsBack(x, 8);
    HexReadsBack(y, 8);
  }

  /** The printed digest determines the hash value. */
  lemma HexStateIsInjective(s: State, t: State)
    requires HexState(s) == HexState(t)
    ensures s == t
  {
    var s7 := HexWord(s.g) + HexWord(s.h);
    var t7 := HexWord(t.g) + HexWord(t.h);
    var s5 := HexWord(s.e) + (HexWord(s.f) + s7);
    var t5 := HexWord(t.e) + (HexWord(t.f) + t7);
    var s3 := HexWord(s.c) + (HexWord(s.d) + s5);
    var t3 := HexWord(t.c) + (HexWord(t.d) + t5);
    TwoWordsApart(s.a, s.b, s3, t.a, t.b, t3);
    TwoWordsApart(s.c, s.d, s5, t.c, t.d, t5);
    TwoWordsApart(s.e, s.f, s7, t.e, t.f, t7);
    WordApart(s.g, HexWord(s.h), t.g, HexWord(t.h));
    HexWordIsInjective(s.h, t.h);
  }

  /** Texts that start with a word and agree, agree on the word and after it. */
  lemma WordApart(x: Word, more: string, y: Word, rest: string)
    requires HexWord(x) + more == HexWord(y) + rest
    ensures x == y && more == rest
  {
    var (left, right) := (HexWord(x) + more, HexWord(y) + rest);
    assert left[..8] == HexWord(x) && left[8..] == more;
    assert right[..8] == HexWord(y) && right[8..] == rest;
    HexWordIsInjective(x, y);
  }

  lemma TwoWordsApart(a: Word, b: Word, more: string, x: Word, y: Word, rest: string)
    requires HexWord(a) + (HexWord(b) + more) == HexWord(x) + (HexWord(y) + rest)
    ensures a == x && b == y && more == rest
  {
    WordApart(a, HexWord(b) + more, x, HexWord(y) + rest);
    WordApart(b, more, y, rest);
  }

  /** What a 16-character name cut from the digest text tells apart: after the
    * seven characters of the prefix there is room for nine hex digits, the
    * first 36 bits of the digest. */
  lemma SixteenCharactersHoldNineDigits(m: seq<Byte>, n: seq<Byte>)
    ensures |Sha256Text(m)| == 71 && |Sha256Text(n)| == 71
    ensures Sha256Text(m)[..16] == Sha256Text(n)[..16] <==>
            Digest(m).a == Digest(n).a && Digest(m).b / 0x1000_0000 == Digest(n).b / 0x1000_0000
  {
    var (s, t) := (Digest(m), Digest(n));
    TextStarts(s);
    TextStarts(t);
    HexWordIsInjective(s.a, t.a);
    FirstDigit(s.b);
    FirstDigit(t.b);
    if HexWord(s.b)[0] == HexWord(t.b)[0] { DigitsDiffer(s.b / 0x1000_0000, t.b / 0x1000_0000); }
    CutsAgree("sha256:", HexWord(s.a), HexWord(s.b)[0], HexWord(t.a), HexWord(t.b)[0]);
  }

  lemma TextStarts(s: State)
    ensures |"sha256:" + HexState(s)| == 71
    ensures ("sha256:" + HexState(s))[..16] == "sha256:" + HexWord(s.a) + [HexWord(s.b)[0]]
  {
    var rest := HexWord(s.c) + (HexWord(s.d) + (HexWord(s.e) + (HexWord(s.f) + (HexWord(s.g) + HexWord(s.h)))));
    Cut("sha256:", HexWord(s.a), HexWord(s.b), rest);
  }

  lemma Cut(prefix: string, a: string, b: string, rest: string)
    requires |prefix| == 7 && |a| == 8 && |b| == 8
    ensures (prefix + (a + (b + rest)))[..16] == prefix + a + [b[0]]
  {
  }

  lemma CutsAgree(prefix: string, a: string, x: char, b: string, y: char)
    requires |a| == |b|
    ensures prefix + a + [x] == prefix + b + [y] <==> a == b && x == y
  {
    var (left, right) := (prefix + a + [x], prefix + b + [y]);
    assert left[|prefix|..|prefix| + |a|] == a && left[|prefix| + |a|] == x;
    assert right[|prefix|..|prefix| + |b|] == b && right[|prefix| + |b|] == y;
  }

  lemma FirstDigit(x: Word)
    ensures HexWord(x)[0] == HEX_DIGITS[x / 0x1000_0000]
  {
    var (x4, x7) := (x / 0x1_0000, x / 0x1000_0000);
    FourDigitsUp(x, 4);
    FourUp(x);
    FirstOfHex(x4, 3);
    FirstOfHex(x4 / 16, 2);
    FirstOfHex(x4 / 16 / 16, 1);
    SevenUp(x);
    OneDigit(x7);
  }

  lemma FourUp(x: nat)
    ensures x / 16 / 16 / 16 / 16 == x / 0x1_0000
  {
  }

  lemma SevenUp(x: nat)
    ensures x / 0x1_0000 / 16 / 16 / 16 == x / 0x1000_0000
  {
  }

  lemma OneDigit(x: nat)
    requires x < 16
    ensures Hex(x, 1)[0] == HEX_DIGITS[x]
  {
    assert x / 16 == 0 && x % 16 == x && Hex(0, 0) == "";
    var c := HEX_DIGITS[x];
    assert Hex(x, 1) == "" + [c];
  }

  lemma FourDigitsUp(x: nat, n: nat)
    requires n > 0
    ensures Hex(x, n + 4)[0] == Hex(x / 16 / 16 / 16 / 16, n)[0]
  {
    FirstOfHex(x, n + 3);
    FirstOfHex(x / 16, n + 2);
    FirstOfHex(x / 16 / 16, n + 1);
    FirstOfHex(x / 16 / 16 / 16, n);
  }

  lemma FirstOfHex(x: nat, n: nat)
    requires n > 0
    ensures Hex(x, n + 1)[0] == Hex(x / 16, n)[0]
  {
    assert Hex(x, n + 1) == Hex(x / 16, n) + [HEX_DIGITS[x % 16]];
  }
}
