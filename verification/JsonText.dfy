/** JSON text by hand: `escape_json` and `object_json` of
  * crates/workspace-engine/src/audit.rs, and the five-pass `escape` of
  * crates/damaian-cli/src/main.rs, against the string grammar of RFC 8259
  * section 7.
  */
module JsonText {
  import opened Common
  import opened HexText
  import opened Characters

  // ---- writing ----

  /** `char::is_control`: Unicode Cc. */
  predicate IsControl(c: char) {
    var n := c as int;
    n < 0x20 || 0x7F <= n <= 0x9F
  }

  function EscapeChar(c: char): string {
    if c == '\"' then "\\\""
    else if c == '\\' then "\\\\"
    else if c == '\n' then "\\n"
    else if c == '\r' then "\\r"
    else if c == '\t' then "\\t"
    else if IsControl(c) then "\\u" + Hex(c as int, 4)
    else [c]
  }

  function EscapeJson(s: string): string {
    FlatMap(EscapeChar, s)
  }

  /** `escape_json`. */
  method EscapeText(value: string) returns (escaped: string)
    ensures escaped == EscapeJson(value)
  {
    escaped := "";
    for i := 0 to |value|
      invariant escaped == EscapeJson(value[..i])
    {
      var c := value[i];
      FlatMapJoins(EscapeChar, value[..i], [c]);
      assert value[..i + 1] == value[..i] + [c];
      assert FlatMap(EscapeChar, [c]) == EscapeChar(c) + FlatMap(EscapeChar, "");
      match c {
        case '\"' => escaped := escaped + "\\\"";
        case '\\' => escaped := escaped + "\\\\";
        case '\n' => escaped := escaped + "\\n";
        case '\r' => escaped := escaped + "\\r";
        case '\t' => escaped := escaped + "\\t";
        case _ =>
          if IsControl(c) {
            escaped := escaped + "\\u" + Hex(c as int, 4);
          } else {
            escaped := escaped + [c];
          }
      }
    }
    assert value[..|value|] == value;
  }

  type Pair = (string, string)

  function Member(field: Pair): string {
    "\"" + EscapeJson(field.0) + "\":\"" + EscapeJson(field.1) + "\""
  }

  function Members(fields: seq<Pair>): string {
    if fields == [] then ""
    else if |fields| == 1 then Member(fields[0])
    else Member(fields[0]) + "," + Members(fields[1..])
  }

  /** `object_json`. */
  function ObjectJson(fields: seq<Pair>): string {
    "{" + Members(fields) + "}"
  }

  // ---- reading ----

  function ShortEscape(c: char): Option<char> {
    match c
    case '\"' => Some('\"')
    case '\\' => Some('\\')
    case '/' => Some('/')
    case 'b' => Some('\U{8}')
    case 'f' => Some('\U{C}')
    case 'n' => Some('\n')
    case 'r' => Some('\r')
    case 't' => Some('\t')
    case _ => None
  }

  /** The code unit of `\uXXXX` at the start of `s`. */
  function UnitAt(s: string): Option<nat> {
    if |s| >= 6 && s[0] == '\\' && s[1] == 'u' && forall i | 2 <= i < 6 :: IsHexDigit(s[i])
    then Some(Unhex(s[2..6])) else None
  }

  /** The character and the length of the escape at the start of `s`; two
    * escapes that form a surrogate pair are one character. */
  function EscapeAt(s: string): (r: Option<(char, nat)>)
    ensures r.Some? ==> 0 < r.value.1 <= |s|
  {
    if |s| < 2 then None
    else if ShortEscape(s[1]).Some? then Some((ShortEscape(s[1]).value, 2))
    else
      match UnitAt(s)
      case None => None
      case Some(unit) =>
        if unit < 0xD800 || 0xE000 <= unit < 0x1_0000 then Some((unit as char, 6))
        else if 0xD800 <= unit < 0xDC00 && UnitAt(s[6..]).Some? && 0xDC00 <= UnitAt(s[6..]).value < 0xE000 then
          Some(((0x1_0000 + (unit - 0xD800) * 0x400 + (UnitAt(s[6..]).value - 0xDC00)) as char, 12))
        else None
  }

  /** Reads a string from just after its opening quote: the value, and what
    * follows the closing quote. */
  function ReadString(s: string): (r: Option<(string, string)>)
    ensures r.Some? ==> |r.value.1| < |s|
    decreases |s|
  {
    if s == "" then None
    else if s[0] == '\"' then Some(("", s[1..]))
    else if s[0] == '\\' then
      match EscapeAt(s)
      case None => None
      case Some((c, n)) => Then(c, ReadString(s[n..]))
    else if s[0] as int < 0x20 then None
    else Then(s[0], ReadString(s[1..]))
  }

  function Then(c: char, rest: Option<(string, string)>): Option<(string, string)> {
    match rest
    case None => None
    case Some((value, after)) => Some(([c] + value, after))
  }

  /** Reads members `"key":"value"` up to the closing brace. */
  function ReadMembers(s: string): Option<(seq<Pair>, string)>
    decreases |s|
  {
    if s == "" || s[0] != '\"' then None
    else
      match ReadString(s[1..])
      case None => None
      case Some((key, afterKey)) =>
        if |afterKey| < 2 || afterKey[..2] != ":\"" then None
        else
          match ReadString(afterKey[2..])
          case None => None
          case Some((value, rest)) =>
            if rest != "" && rest[0] == '}' then Some(([(key, value)], rest[1..]))
            else if rest != "" && rest[0] == ',' then
              match ReadMembers(rest[1..])
              case None => None
              case Some((more, after)) => Some(([(key, value)] + more, after))
            else None
  }

  /** A whole object of string members, and nothing after it. */
  function ReadObject(s: string): Option<seq<Pair>> {
    if s == "{}" then Some([])
    else if s == "" || s[0] != '{' then None
    else
      match ReadMembers(s[1..])
      case Some((fields, "")) => Some(fields)
      case _ => None
  }

  // ---- what is written reads back ----

  lemma UnitReadsBack(n: nat, rest: string)
    requires n < 0x100
    ensures UnitAt("\\u" + Hex(n, 4) + rest) == Some(n)
  {
    var s := "\\u" + Hex(n, 4) + rest;
    assert Pow16(4) == 0x1_0000;
    HexReadsBack(n, 4);
    assert s[2..6] == Hex(n, 4);
  }

  lemma EscapedCharReadsBack(c: char, rest: string)
    ensures ReadString(EscapeChar(c) + rest) == Then(c, ReadString(rest))
  {
    var e := EscapeChar(c);
    if e == [c] {
      assert (e + rest)[0] == c && (e + rest)[1..] == rest;
    } else if |e| == 2 {
      ShortEscapeReads(e[1], c, rest);
      assert e == ['\\', e[1]];
    } else {
      UnitReads(c, rest);
    }
  }

  lemma ShortEscapeReads(x: char, c: char, rest: string)
    requires ShortEscape(x) == Some(c)
    ensures ReadString(['\\', x] + rest) == Then(c, ReadString(rest))
  {
    var s := ['\\', x] + rest;
    assert s[0] == '\\' && s[1] == x && s[2..] == rest;
    assert EscapeAt(s) == Some((c, 2));
  }

  lemma UnitReads(c: char, rest: string)
    requires c as int < 0x100
    ensures ReadString("\\u" + Hex(c as int, 4) + rest) == Then(c, ReadString(rest))
  {
    var s := "\\u" + Hex(c as int, 4) + rest;
    UnitReadsBack(c as int, rest);
    assert s[0] == '\\' && s[1] == 'u' && s[6..] == rest;
    assert ShortEscape('u') == None;
    assert EscapeAt(s) == Some((c, 6));
  }

  /** Whatever follows the closing quote, the escaped value reads back as the
    * value itself. */
  lemma {:induction false} EscapedTextReadsBack(value: string, rest: string)
    ensures ReadString(EscapeJson(value) + "\"" + rest) == Some((value, rest))
  {
    if value == "" {
      assert EscapeJson(value) + "\"" + rest == "\"" + rest;
      assert ("\"" + rest)[1..] == rest;
    } else {
      EscapedTextReadsBack(value[1..], rest);
      var tail := EscapeJson(value[1..]) + "\"" + rest;
      EscapedCharReadsBack(value[0], tail);
      assert EscapeJson(value) + "\"" + rest == EscapeChar(value[0]) + tail;
      assert [value[0]] + value[1..] == value;
    }
  }

  lemma MemberParts(key: string, value: string, rest: string)
    ensures var s := ("\"" + key + "\":\"" + value + "\"") + rest;
            && s[0] == '\"' && s[1..] == key + "\"" + (":\"" + (value + "\"" + rest))
  {
    var s := ("\"" + key + "\":\"" + value + "\"") + rest;
    assert s == "\"" + (key + "\"" + (":\"" + (value + "\"" + rest)));
  }

  /** What `ReadMembers` makes of what follows a member. */
  function AfterMember(field: Pair, rest: string): Option<(seq<Pair>, string)>
    requires rest != ""
  {
    if rest[0] == '}' then Some(([field], rest[1..]))
    else if rest[0] == ',' then
      match ReadMembers(rest[1..])
      case None => None
      case Some((more, after)) => Some(([field] + more, after))
    else None
  }

  lemma MemberReadsBack(field: Pair, rest: string)
    requires rest != ""
    ensures ReadMembers(Member(field) + rest) == AfterMember(field, rest)
  {
    var (key, value) := (EscapeJson(field.0), EscapeJson(field.1));
    var afterKey := ":\"" + (value + "\"" + rest);
    MemberParts(key, value, rest);
    EscapedTextReadsBack(field.0, afterKey);
    EscapedTextReadsBack(field.1, rest);
    assert afterKey[..2] == ":\"" && afterKey[2..] == value + "\"" + rest;
    Unfolded(Member(field) + rest, field, afterKey, rest);
  }

  lemma Unfolded(s: string, field: Pair, afterKey: string, rest: string)
    requires s != "" && s[0] == '\"' && rest != ""
    requires ReadString(s[1..]) == Some((field.0, afterKey))
    requires |afterKey| >= 2 && afterKey[..2] == ":\"" && ReadString(afterKey[2..]) == Some((field.1, rest))
    ensures ReadMembers(s) == AfterMember(field, rest)
  {
  }

  lemma Joined(a: string, b: string, c: string)
    ensures (a + "," + b) + c == a + ("," + (b + c)) && ("," + (b + c))[1..] == b + c
  {
  }

  lemma {:induction false} MembersReadBack(fields: seq<Pair>)
    requires fields != []
    ensures ReadMembers(Members(fields) + "}") == Some((fields, ""))
    decreases |fields|
  {
    var field := fields[0];
    if |fields| == 1 {
      MemberReadsBack(field, "}");
      assert "}"[1..] == "";
      assert fields == [field];
    } else {
      var tail := Members(fields[1..]) + "}";
      MembersReadBack(fields[1..]);
      MemberReadsBack(field, "," + tail);
      Joined(Member(field), Members(fields[1..]), "}");
      assert [field] + fields[1..] == fields;
    }
  }

  /** The audit record decodes to exactly the fields it was written from. */
  lemma ObjectReadsBack(fields: seq<Pair>)
    ensures ReadObject(ObjectJson(fields)) == Some(fields)
  {
    if fields == [] {
      assert ObjectJson([]) == "{}";
    } else {
      MembersReadBack(fields);
      var s := ObjectJson(fields);
      assert s[1..] == Members(fields) + "}";
      assert |Members(fields)| > 0;
    }
  }

  // ---- one record, one line ----

  predicate Printable(s: string) {
    forall i | 0 <= i < |s| :: !IsControl(s[i])
  }

  lemma {:induction false} EscapedTextIsPrintable(value: string)
    ensures Printable(EscapeJson(value))
  {
    if value != "" {
      EscapedTextIsPrintable(value[1..]);
      if |EscapeChar(value[0])| == 6 {
        assert Pow16(4) == 0x1_0000;
        HexReadsBack(value[0] as int, 4);
      }
    }
  }

  lemma {:induction false} MembersArePrintable(fields: seq<Pair>)
    ensures Printable(Members(fields))
    decreases |fields|
  {
    if fields != [] {
      EscapedTextIsPrintable(fields[0].0);
      EscapedTextIsPrintable(fields[0].1);
      MembersArePrintable(fields[1..]);
    }
  }

  /** No audit record holds a line break or any other control character, so
    * each one is a line of its own. */
  lemma RecordIsOneLine(fields: seq<Pair>)
    ensures forall i | 0 <= i < |ObjectJson(fields)| ::
              ObjectJson(fields)[i] as int >= 0x20 && !(0x7F <= ObjectJson(fields)[i] as int <= 0x9F)
  {
    MembersArePrintable(fields);
  }

  // ---- the command line's escaper ----

  function Swapping(c: char, text: string): char -> string {
    x => if x == c then text else [x]
  }

  /** `str::replace` of one character. */
  function Replace(s: string, c: char, text: string): string {
    FlatMap(Swapping(c, text), s)
  }

  /** `escape`: five passes, one after the other. */
  function CliEscape(s: string): string {
    Replace(Replace(Replace(Replace(Replace(s, '\\', "\\\\"), '\"', "\\\""), '\n', "\\n"), '\r', "\\r"), '\t', "\\t")
  }

  function CliChar(c: char): string {
    if c == '\\' then "\\\\" else if c == '\"' then "\\\"" else if c == '\n' then "\\n"
    else if c == '\r' then "\\r" else if c == '\t' then "\\t" else [c]
  }

  lemma ReplaceJoins(a: string, b: string, c: char, text: string)
    ensures Replace(a + b, c, text) == Replace(a, c, text) + Replace(b, c, text)
  {
    FlatMapJoins(Swapping(c, text), a, b);
  }

  lemma CliEscapeJoins(a: string, b: string)
    ensures CliEscape(a + b) == CliEscape(a) + CliEscape(b)
  {
    var (a1, b1) := (Replace(a, '\\', "\\\\"), Replace(b, '\\', "\\\\"));
    var (a2, b2) := (Replace(a1, '\"', "\\\""), Replace(b1, '\"', "\\\""));
    var (a3, b3) := (Replace(a2, '\n', "\\n"), Replace(b2, '\n', "\\n"));
    var (a4, b4) := (Replace(a3, '\r', "\\r"), Replace(b3, '\r', "\\r"));
    ReplaceJoins(a, b, '\\', "\\\\");
    ReplaceJoins(a1, b1, '\"', "\\\"");
    ReplaceJoins(a2, b2, '\n', "\\n");
    ReplaceJoins(a3, b3, '\r', "\\r");
    ReplaceJoins(a4, b4, '\t', "\\t");
  }

  /** A pass leaves what an earlier pass wrote alone, unless it is the one
    * character the pass looks for. */
  lemma {:induction false} ReplaceShort(s: string, c: char, text: string)
    ensures s == [c] ==> Replace(s, c, text) == text
    ensures c !in s ==> Replace(s, c, text) == s
  {
    if s != "" {
      ReplaceShort(s[1..], c, text);
      assert s == [s[0]] + s[1..];
    }
  }

  lemma CliEscapesOneChar(x: char)
    ensures CliEscape([x]) == CliChar(x)
  {
    var s1 := Replace([x], '\\', "\\\\");
    ReplaceShort([x], '\\', "\\\\");
    assert s1 == if x == '\\' then "\\\\" else [x];
    var s2 := Replace(s1, '\"', "\\\"");
    ReplaceShort(s1, '\"', "\\\"");
    assert s2 == if x == '\"' then "\\\"" else s1;
    var s3 := Replace(s2, '\n', "\\n");
    ReplaceShort(s2, '\n', "\\n");
    assert s3 == if x == '\n' then "\\n" else s2;
    var s4 := Replace(s3, '\r', "\\r");
    ReplaceShort(s3, '\r', "\\r");
    assert s4 == if x == '\r' then "\\r" else s3;
    ReplaceShort(s4, '\t', "\\t");
  }

  /** The five passes do what one pass over the characters does: none rewrites
    * what an earlier one wrote. */
  lemma {:induction false} FivePassesAreOne(s: string)
    ensures CliEscape(s) == FlatMap(CliChar, s)
  {
    if s != "" {
      FivePassesAreOne(s[1..]);
      CliEscapesOneChar(s[0]);
      CliEscapeJoins([s[0]], s[1..]);
      assert s == [s[0]] + s[1..];
    }
  }

  predicate ShortControl(c: char) {
    c == '\n' || c == '\r' || c == '\t'
  }

  /** The two escapers agree on a text exactly when its only control
    * characters are the three with a short escape. */
  lemma {:induction false} EscapersAgreeIff(s: string)
    ensures CliEscape(s) == EscapeJson(s) <==> forall i | 0 <= i < |s| :: IsControl(s[i]) ==> ShortControl(s[i])
  {
    FivePassesAreOne(s);
    if s != "" {
      FivePassesAreOne(s[1..]);
      EscapersAgreeIff(s[1..]);
      var (c, e) := (CliChar(s[0]), EscapeChar(s[0]));
      if c == e {
        assert CliEscape(s)[|c|..] == CliEscape(s[1..]) && EscapeJson(s)[|c|..] == EscapeJson(s[1..]);
        assert forall i | 0 < i < |s| :: s[i] == s[1..][i - 1];
      } else {
        assert CliEscape(s)[0] == s[0] && EscapeJson(s)[0] == '\\';
        assert IsControl(s[0]) && !ShortControl(s[0]);
      }
    }
  }
}
