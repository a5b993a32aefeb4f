/** Characters, their length in UTF-8, and rewriting a text character by
  * character. */
module Characters {
  import opened Common

  /** Every character rewritten by `f`, in order. */
  function FlatMap(f: char -> string, s: string): string {
    if s == "" then "" else f(s[0]) + FlatMap(f, s[1..])
  }

  lemma {:induction false} FlatMapJoins(f: char -> string, a: string, b: string)
    ensures FlatMap(f, a + b) == FlatMap(f, a) + FlatMap(f, b)
  {
    if a == "" {
      assert a + b == b;
    } else {
      FlatMapJoins(f, a[1..], b);
      var s := a + b;
      assert s[0] == a[0] && s[1..] == a[1..] + b;
      Regroup(f(a[0]), FlatMap(f, a[1..]), FlatMap(f, b));
    }
  }

  function CharBytes(c: char): nat {
    if c as int < 0x80 then 1 else if c as int < 0x800 then 2 else if c as int < 0x1_0000 then 3 else 4
  }

  /** `str::len`: the length in UTF-8. */
  function Bytes(s: string): nat {
    if s == "" then 0 else Bytes(s[..|s| - 1]) + CharBytes(s[|s| - 1])
  }

  /** A character in UTF-8 (RFC 3629, section 3). */
  function Utf8(c: char): seq<int> {
    var n := c as int;
    if n < 0x80 then [n]
    else if n < 0x800 then [0xC0 + n / 0x40, 0x80 + n % 0x40]
    else if n < 0x1_0000 then [0xE0 + n / 0x1000, 0x80 + n / 0x40 % 0x40, 0x80 + n % 0x40]
    else [0xF0 + n / 0x4_0000, 0x80 + n / 0x1000 % 0x40, 0x80 + n / 0x40 % 0x40, 0x80 + n % 0x40]
  }

  /** Six payload bits in every byte but the first. */
  lemma CharBytesIsUtf8(c: char)
    ensures CharBytes(c) == |Utf8(c)|
    ensures forall i | 0 < i < |Utf8(c)| :: 0x80 <= Utf8(c)[i] < 0xC0
    ensures 0 <= Utf8(c)[0] < 0x80 || 0xC0 <= Utf8(c)[0] < 0xF8
  {
  }

  predicate Ascii(s: string) {
    forall i | 0 <= i < |s| :: s[i] as int < 0x80
  }

  lemma {:induction false} AsciiAddsItsLength(s: string, ascii: string)
    requires Ascii(ascii)
    ensures Bytes(s + ascii) == Bytes(s) + |ascii|
  {
    if ascii == "" {
      assert s + ascii == s;
    } else {
      var (init, last) := (ascii[..|ascii| - 1], ascii[|ascii| - 1]);
      AsciiAddsItsLength(s, init);
      assert s + ascii == s + init + [last];
      assert (s + ascii)[..|s + ascii| - 1] == s + init;
    }
  }

  /** The characters `str::trim` removes: Unicode White_Space. */
  predicate IsSpace(c: char) {
    var n := c as int;
    9 <= n <= 13 || n == 0x20 || n == 0x85 || n == 0xA0 || n == 0x1680 || 0x2000 <= n <= 0x200A
    || n == 0x2028 || n == 0x2029 || n == 0x202F || n == 0x205F || n == 0x3000
  }

  /** `s.trim().is_empty()`. */
  predicate Blank(s: string) {
    forall i | 0 <= i < |s| :: IsSpace(s[i])
  }

  predicate IsDigit(c: char) {
    '0' <= c <= '9'
  }
}
