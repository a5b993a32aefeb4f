/** Markdown links in a response: `flatten_markdown_links` of
  * crates/eval-harness/src/assertions.rs.
  */
module MarkdownPaths {
  import opened Common
  import opened Characters

  // ---- finding a character ----

  /** `find` of `c` in `s`, from a place on. */
  function Find(s: string, c: char, from: nat): (r: Option<nat>)
    requires from <= |s|
    ensures r.Some? ==> from <= r.value < |s| && s[r.value] == c
    decreases |s| - from
  {
    if from == |s| then None else if s[from] == c then Some(from) else Find(s, c, from + 1)
  }

  /** It finds the first one. */
  lemma {:induction false} FoundAt(s: string, c: char, from: nat, at: nat)
    requires from <= at < |s| && s[at] == c && forall i | from <= i < at :: s[i] != c
    ensures Find(s, c, from) == Some(at)
    decreases at - from
  {
    if from < at {
      FoundAt(s, c, from + 1, at);
    }
  }

  function Shift(r: Option<nat>, distance: nat): Option<nat> {
    match r
    case None => None
    case Some(at) => Some(at + distance)
  }

  lemma {:induction false} FindBehind(text: string, rest: string, c: char, from: nat)
    requires from <= |rest|
    ensures Find(text + rest, c, |text| + from) == Shift(Find(rest, c, from), |text|)
    decreases |rest| - from
  {
    if from < |rest| && rest[from] != c {
      FindBehind(text, rest, c, from + 1);
    }
  }

  lemma {:induction false} FindSkips(s: string, c: char, from: nat, next: nat)
    requires from <= next <= |s| && forall i | from <= i < next :: s[i] != c
    ensures Find(s, c, from) == Find(s, c, next)
    decreases |s| - from
  {
    if from < next {
      FindSkips(s, c, from + 1, next);
    }
  }

  // ---- links ----

  /** What the scan does at the start of a text: nothing more to rewrite, or
    * emit a part and go on with the rest. */
  datatype Step = Done | Emit(part: string, rest: string, link: bool)

  /** `[text](target)` with the text before it becomes the text, ` text ` and
    * `target `; a bracket that is not a link is emitted as it is. */
  function StepOf(s: string): (r: Step)
    ensures r.Emit? ==> |r.rest| < |s|
  {
    match Find(s, '[', 0)
    case None => Done
    case Some(open) => StepAt(s, open)
  }

  function StepAt(s: string, open: nat): (r: Step)
    requires open < |s|
    ensures r.Emit? ==> |r.rest| < |s|
  {
    match Find(s, ']', open + 1)
    case None => Done
    case Some(close) =>
      if close + 1 == |s| || s[close + 1] != '(' then Emit(s[..close + 1], s[close + 1..], false)
      else
        match Find(s, ')', close + 2)
        case None => Done
        case Some(end) => EmitLink(s, open, close, end)
  }

  function EmitLink(s: string, open: nat, close: nat, end: nat): Step
    requires open < close && close + 2 <= end < |s|
  {
    Emit(Spaced(s[..open], s[open + 1..close], s[close + 2..end]), s[end + 1..], true)
  }

  function Spaced(before: string, words: string, target: string): string {
    before + " " + words + " " + target + " "
  }

  function Flatten(s: string): string
    decreases |s|
  {
    match StepOf(s)
    case Done => s
    case Emit(part, rest, _) => part + Flatten(rest)
  }

  /** The body of the loop: what is emitted next, if anything. */
  method TakeStep(rest: string) returns (r: Step)
    ensures r == StepOf(rest)
  {
    var open := Find(rest, '[', 0);
    if open.None? {
      return Done;
    }
    var close := Find(rest, ']', open.value + 1);
    if close.None? {
      return Done;
    }
    if close.value + 1 == |rest| || rest[close.value + 1] != '(' {
      return Emit(rest[..close.value + 1], rest[close.value + 1..], false);
    }
    var end := Find(rest, ')', close.value + 2);
    if end.None? {
      return Done;
    }
    var part := rest[..open.value];
    part := part + " ";
    part := part + rest[open.value + 1..close.value];
    part := part + " ";
    part := part + rest[close.value + 2..end.value];
    part := part + " ";
    assert part == Spaced(rest[..open.value], rest[open.value + 1..close.value], rest[close.value + 2..end.value]);
    r := Emit(part, rest[end.value + 1..], true);
  }

  /** `flatten_markdown_links`. */
  method FlattenMarkdownLinks(response: string) returns (flattened: string)
    ensures flattened == Flatten(response)
  {
    flattened := "";
    var rest := response;
    while true
      invariant flattened + Flatten(rest) == Flatten(response)
      decreases |rest|
    {
      var step := TakeStep(rest);
      if step.Done? {
        break;
      }
      Regroup(flattened, step.part, Flatten(step.rest));
      flattened := flattened + step.part;
      rest := step.rest;
    }
    flattened := flattened + rest;
  }

  // ---- what the rewriting means ----

  /** A response as it was written. */
  datatype Piece =
    | Plain(text: string)
    | Bracketed(text: string)                    // `[text]`, in prose
    | Linked(words: string, target: string)      // `[words](target)`

  predicate Written(p: Piece) {
    match p
    case Plain(text) => '[' !in text
    case Bracketed(text) => ']' !in text
    case Linked(words, target) => ']' !in words && ')' !in target
  }

  function Source(p: Piece): string {
    match p
    case Plain(text) => text
    case Bracketed(text) => "[" + text + "]"
    case Linked(words, target) => "[" + words + "](" + target + ")"
  }

  function Flat(p: Piece): string {
    match p
    case Linked(words, target) => Spaced("", words, target)
    case _ => Source(p)
  }

  function All(f: Piece -> string, pieces: seq<Piece>): string {
    if pieces == [] then "" else f(pieces[0]) + All(f, pieces[1..])
  }

  /** No bracketed word is directly followed by an opening parenthesis, or it
    * would be a link. */
  predicate Readable(pieces: seq<Piece>) {
    forall i | 0 <= i < |pieces| ::
      Written(pieces[i]) && (pieces[i].Bracketed? ==>
        var rest := All(Source, pieces[i + 1..]); rest == "" || rest[0] != '(')
  }

  lemma CutsBehind(text: string, rest: string, i: nat, j: nat)
    requires i <= j <= |rest|
    ensures (text + rest)[|text| + i..|text| + j] == rest[i..j]
    ensures (text + rest)[|text| + i..] == rest[i..]
    ensures (text + rest)[..|text| + i] == text + rest[..i]
  {
  }

  /** What a step emits behind a text it copies. */
  function Behind(text: string, r: Step): Step {
    match r
    case Done => Done
    case Emit(part, rest, link) => Emit(text + part, rest, link)
  }

  lemma LinkBehind(text: string, rest: string, open: nat, close: nat, end: nat)
    requires open < close && close + 2 <= end < |rest|
    ensures EmitLink(text + rest, |text| + open, |text| + close, |text| + end) == Behind(text, EmitLink(rest, open, close, end))
  {
    var (a, b, c) := (rest[..open], rest[open + 1..close], rest[close + 2..end]);
    CutsBehind(text, rest, open, |rest|);
    CutsBehind(text, rest, open + 1, close);
    CutsBehind(text, rest, close + 2, end);
    CutsBehind(text, rest, end + 1, |rest|);
    assert Spaced(text + a, b, c) == text + Spaced(a, b, c);
  }

  lemma StepAtLink(s: string, open: nat, close: nat, end: nat)
    requires open < |s| && Find(s, ']', open + 1) == Some(close)
    requires close + 1 < |s| && s[close + 1] == '(' && Find(s, ')', close + 2) == Some(end)
    ensures StepAt(s, open) == EmitLink(s, open, close, end)
  {
  }

  lemma LinkStaysALink(text: string, rest: string, s: string, open: nat, close: nat, end: nat)
    requires s == text + rest && open < |rest|
    requires Find(s, ']', |text| + open + 1) == Some(|text| + close) && Find(rest, ']', open + 1) == Some(close)
    requires close + 1 < |rest| && rest[close + 1] == '(' && Find(rest, ')', close + 2) == Some(end)
    ensures StepAt(s, |text| + open) == Behind(text, StepAt(rest, open))
  {
    FindBehind(text, rest, ')', close + 2);
    StepAtLink(rest, open, close, end);
    StepAtLink(s, |text| + open, |text| + close, |text| + end);
    LinkBehind(text, rest, open, close, end);
  }

  lemma BracketBehind(text: string, rest: string, s: string, open: nat, close: nat)
    requires s == text + rest && open < |rest|
    requires Find(s, ']', |text| + open + 1) == Some(|text| + close) && Find(rest, ']', open + 1) == Some(close)
    ensures StepAt(s, |text| + open) == Behind(text, StepAt(rest, open))
  {
    if close + 1 == |rest| || rest[close + 1] != '(' {
      CutsBehind(text, rest, close + 1, |rest|);
    } else if Find(rest, ')', close + 2).Some? {
      LinkStaysALink(text, rest, s, open, close, Find(rest, ')', close + 2).value);
    } else {
      FindBehind(text, rest, ')', close + 2);
    }
  }

  lemma StepAtBehind(text: string, rest: string, s: string, open: nat)
    requires s == text + rest && open < |rest|
    ensures StepAt(s, |text| + open) == Behind(text, StepAt(rest, open))
  {
    FindBehind(text, rest, ']', open + 1);
    var close := Find(rest, ']', open + 1);
    if close.Some? {
      BracketBehind(text, rest, s, open, close.value);
    }
  }

  lemma StepIsAt(s: string, open: Option<nat>)
    requires Find(s, '[', 0) == open
    ensures StepOf(s) == if open.Some? then StepAt(s, open.value) else Done
  {
  }

  lemma OpeningIsBehind(text: string, rest: string)
    requires '[' !in text
    ensures Find(text + rest, '[', 0) == Shift(Find(rest, '[', 0), |text|)
  {
    FindSkips(text + rest, '[', 0, |text|);
    FindBehind(text, rest, '[', 0);
  }

  lemma StepBehind(text: string, rest: string, s: string)
    requires s == text + rest && '[' !in text
    ensures StepOf(s) == Behind(text, StepOf(rest))
  {
    OpeningIsBehind(text, rest);
    match Find(rest, '[', 0)
    case None =>
      StepIsAt(rest, None);
      StepIsAt(s, None);
    case Some(open) =>
      StepIsAt(rest, Some(open));
      StepIsAt(s, Some(|text| + open));
      StepAtBehind(text, rest, s, open);
  }

  /** Plain text in front of anything is copied. */
  lemma PlainIsCopied(text: string, rest: string)
    requires '[' !in text
    ensures Flatten(text + rest) == text + Flatten(rest)
  {
    StepBehind(text, rest, text + rest);
    match StepOf(rest)
    case Done =>
    case Emit(part, more, _) => Regroup(text, part, Flatten(more));
  }

  lemma BracketIsCopied(text: string, rest: string)
    requires ']' !in text && (rest == "" || rest[0] != '(')
    ensures StepOf("[" + text + "]" + rest) == Emit("[" + text + "]", rest, false)
  {
    var s := "[" + text + "]" + rest;
    var close := |text| + 1;
    FoundAt(s, '[', 0, 0);
    assert forall i | 1 <= i < close :: s[i] == text[i - 1];
    FoundAt(s, ']', 1, close);
    assert s[..close + 1] == "[" + text + "]" && s[close + 1..] == rest;
  }

  lemma LinkParts(words: string, target: string, rest: string)
    ensures var s := "[" + words + "](" + target + ")" + rest;
            && s[0] == '[' && s[1..|words| + 1] == words && s[|words| + 1] == ']' && s[|words| + 2] == '('
            && s[|words| + 3..|words| + 3 + |target|] == target && s[|words| + 3 + |target|] == ')'
            && s[|words| + 4 + |target|..] == rest
  {
  }

  lemma NotBefore(s: string, c: char, i: nat, j: nat)
    requires i <= j <= |s| && c !in s[i..j]
    ensures forall k | i <= k < j :: s[k] != c
  {
    forall k | i <= k < j ensures s[k] != c {
      assert s[k] == s[i..j][k - i];
    }
  }

  lemma LinkIsOpened(words: string, target: string, rest: string)
    requires ']' !in words && ')' !in target
    ensures StepOf("[" + words + "](" + target + ")" + rest) == Emit(Spaced("", words, target), rest, true)
  {
    var s := "[" + words + "](" + target + ")" + rest;
    var (close, end) := (|words| + 1, |words| + 3 + |target|);
    LinkParts(words, target, rest);
    FoundAt(s, '[', 0, 0);
    NotBefore(s, ']', 1, close);
    FoundAt(s, ']', 1, close);
    NotBefore(s, ')', close + 2, end);
    FoundAt(s, ')', close + 2, end);
  }

  /** Whatever a response is made of, every link in it is opened and everything
    * else is left exactly as it was. */
  lemma {:induction false} EveryLinkIsOpened(pieces: seq<Piece>)
    requires Readable(pieces)
    ensures Flatten(All(Source, pieces)) == All(Flat, pieces)
  {
    if pieces != [] {
      var (p, rest) := (pieces[0], All(Source, pieces[1..]));
      assert forall i | 0 <= i < |pieces[1..]| :: pieces[1..][i] == pieces[i + 1] && pieces[1..][i + 1..] == pieces[i + 2..];
      EveryLinkIsOpened(pieces[1..]);
      match p
      case Plain(text) => PlainIsCopied(text, rest);
      case Bracketed(text) => BracketIsCopied(text, rest);
      case Linked(words, target) => LinkIsOpened(words, target, rest);
    }
  }

  /** How many links are rewritten. */
  function Links(s: string): nat
    decreases |s|
  {
    match StepOf(s)
    case Done => 0
    case Emit(_, rest, link) => (if link then 1 else 0) + Links(rest)
  }

  /** What one step emits: a bracket as it was, a link one character shorter. */
  lemma StepCosts(s: string)
    requires StepOf(s).Emit?
    ensures var r := StepOf(s);
            && |r.part| + |r.rest| + (if r.link then 1 else 0) == |s|
            && (!r.link ==> r.part + r.rest == s)
  {
  }

  /** Every link costs one character, so a text comes out unchanged exactly when
    * it holds no link. */
  lemma {:induction false} UnchangedIffNoLink(s: string)
    ensures |Flatten(s)| + Links(s) == |s|
    ensures Flatten(s) == s <==> Links(s) == 0
    decreases |s|
  {
    match StepOf(s)
    case Done =>
    case Emit(part, rest, link) =>
      StepCosts(s);
      UnchangedIffNoLink(rest);
      if !link && Flatten(s) == s {
        assert s[|part|..] == rest && Flatten(s)[|part|..] == Flatten(rest);
      }
  }

  predicate HasLinkMark(s: string) {
    exists i :: 0 <= i < |s| - 1 && s[i] == ']' && s[i + 1] == '('
  }

  lemma StepMarks(s: string)
    requires StepOf(s).Emit?
    ensures StepOf(s).link || HasLinkMark(StepOf(s).rest) ==> HasLinkMark(s)
  {
    var r := StepOf(s);
    var open := Find(s, '[', 0).value;
    var close := Find(s, ']', open + 1).value;
    if r.link {
      assert s[close] == ']' && s[close + 1] == '(';
    } else if HasLinkMark(r.rest) {
      var i :| 0 <= i < |r.rest| - 1 && r.rest[i] == ']' && r.rest[i + 1] == '(';
      assert s[close + 1 + i] == ']' && s[close + 2 + i] == '(';
    }
  }

  /** Without `](` there is no link, so nothing changes. */
  lemma {:induction false} NoLinkMarkNoLink(s: string)
    ensures Links(s) > 0 ==> HasLinkMark(s)
    ensures !HasLinkMark(s) ==> Flatten(s) == s
    decreases |s|
  {
    UnchangedIffNoLink(s);
    if StepOf(s).Emit? {
      StepMarks(s);
      NoLinkMarkNoLink(StepOf(s).rest);
    }
  }

  /** The characters the rewriting may neither lose, move nor invent. */
  predicate Kept(c: char) {
    c != '[' && c != ']' && c != '(' && c != ')' && c != ' '
  }

  function Letter(c: char): string {
    if Kept(c) then [c] else ""
  }

  function Letters(s: string): string {
    FlatMap(Letter, s)
  }

  lemma SixParts(a: string, x: string, b: string, y: string, c: string, z: string)
    ensures Letters(a + x + b + y + c + z) == Letters(a) + Letters(x) + Letters(b) + Letters(y) + Letters(c) + Letters(z)
  {
    FlatMapJoins(Letter, a, x);
    FlatMapJoins(Letter, a + x, b);
    FlatMapJoins(Letter, a + x + b, y);
    FlatMapJoins(Letter, a + x + b + y, c);
    FlatMapJoins(Letter, a + x + b + y + c, z);
  }

  lemma NoLetters()
    ensures Letters(" ") == "" && Letters("[") == "" && Letters("](") == "" && Letters(")") == ""
  {
    assert "]("[1..] == "(";
  }

  lemma LinkLetters(a: string, b: string, c: string)
    ensures Letters(Spaced(a, b, c)) == Letters(a + "[" + b + "](" + c + ")")
  {
    NoLetters();
    SixParts(a, " ", b, " ", c, " ");
    SixParts(a, "[", b, "](", c, ")");
  }

  lemma LinkCut(s: string, open: nat, close: nat, end: nat)
    requires open < close && close + 2 <= end < |s|
    requires s[open] == '[' && s[close] == ']' && s[close + 1] == '(' && s[end] == ')'
    ensures s == (s[..open] + "[" + s[open + 1..close] + "](" + s[close + 2..end] + ")") + s[end + 1..]
  {
  }

  /** A step moves no letter. */
  lemma StepLetters(s: string)
    requires StepOf(s).Emit?
    ensures Letters(s) == Letters(StepOf(s).part) + Letters(StepOf(s).rest)
  {
    var r := StepOf(s);
    var open := Find(s, '[', 0).value;
    var close := Find(s, ']', open + 1).value;
    if r.link {
      var end := Find(s, ')', close + 2).value;
      var (a, b, c) := (s[..open], s[open + 1..close], s[close + 2..end]);
      LinkCut(s, open, close, end);
      LinkLetters(a, b, c);
      FlatMapJoins(Letter, a + "[" + b + "](" + c + ")", s[end + 1..]);
    } else {
      StepCosts(s);
      FlatMapJoins(Letter, r.part, r.rest);
    }
  }

  /** Apart from brackets, parentheses and spaces, the rewritten text is the
    * text: nothing lost, repeated or reordered. */
  lemma {:induction false} LettersAreConserved(s: string)
    ensures Letters(Flatten(s)) == Letters(s)
    decreases |s|
  {
    if StepOf(s).Emit? {
      var r := StepOf(s);
      StepLetters(s);
      LettersAreConserved(r.rest);
      FlatMapJoins(Letter, r.part, Flatten(r.rest));
    }
  }
}
