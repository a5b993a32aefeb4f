/** Lower-case hex, as Rust's `{:08x}` and `{:04x}` print it, and its reading. */
module HexText {

  const HEX_DIGITS := "0123456789abcdef"

  /** The low `n` hex digits of `x`, most significant first. */
  function Hex(x: nat, n: nat): (text: string)
    ensures |text| == n
  {
    if n == 0 then "" else Hex(x / 16, n - 1) + [HEX_DIGITS[x % 16]]
  }

  predicate IsHexDigit(c: char) {
    '0' <= c <= '9' || 'a' <= c <= 'f' || 'A' <= c <= 'F'
  }

  function DigitValue(c: char): nat {
    if '0' <= c <= '9' then c as int - '0' as int
    else if 'a' <= c <= 'f' then c as int - 'a' as int + 10
    else if 'A' <= c <= 'F' then c as int - 'A' as int + 10
    else 0
  }

  function Unhex(text: string): nat {
    if text == "" then 0 else 16 * Unhex(text[..|text| - 1]) + DigitValue(text[|text| - 1])
  }

  function Pow16(n: nat): nat {
    if n == 0 then 1 else 16 * Pow16(n - 1)
  }

  lemma DigitReadsBack(i: nat)
    requires i < 16
    ensures IsHexDigit(HEX_DIGITS[i]) && DigitValue(HEX_DIGITS[i]) == i
  {
    assert HEX_DIGITS[..10] == "0123456789" && HEX_DIGITS[10..] == "abcdef";
  }

  /** Hex reads back as the number it was written from. */
  lemma {:induction false} HexReadsBack(x: nat, n: nat)
    requires x < Pow16(n)
    ensures Unhex(Hex(x, n)) == x
    ensures forall i | 0 <= i < n :: IsHexDigit(Hex(x, n)[i])
  {
    if n > 0 {
      HexReadsBack(x / 16, n - 1);
      assert Hex(x, n)[..n - 1] == Hex(x / 16, n - 1);
      DigitReadsBack(x % 16);
    }
  }

  lemma DigitsDiffer(i: nat, j: nat)
    requires i < 16 && j < 16 && HEX_DIGITS[i] == HEX_DIGITS[j]
    ensures i == j
  {
    DigitReadsBack(i);
    DigitReadsBack(j);
  }
}
