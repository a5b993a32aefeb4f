/** Paths a response names that do not exist: `peel_line_col` and
  * `unresolved_paths` of crates/eval-harness/src/assertions.rs.
  */
module ResponsePaths {
  import opened Common
  import opened Characters
  import opened MarkdownPaths

  // ---- a trailing `:line[:col]` ----

  function LastOf(s: string, c: char): (r: Option<nat>)
    ensures r.Some? ==> r.value < |s| && s[r.value] == c
  {
    if s == "" then None
    else if s[|s| - 1] == c then Some(|s| - 1)
    else LastOf(s[..|s| - 1], c)
  }

  predicate IsNumber(s: string) {
    s != "" && forall i | 0 <= i < |s| :: IsDigit(s[i])
  }

  /** One group of digits peeled off, if there is one. */
  function PeelOnce(path: string): string {
    match LastOf(path, ':')
    case None => path
    case Some(at) => if IsNumber(path[at + 1..]) then path[..at] else path
  }

  function Peel(token: string): string {
    PeelOnce(PeelOnce(token))
  }

  /** `peel_line_col`. */
  method PeelLineCol(token: string) returns (path: string)
    ensures path == Peel(token)
  {
    path := token;
    for i := 0 to 2
      invariant path == if i == 0 then token else if i == 1 then PeelOnce(token) else Peel(token)
    {
      var at := LastOf(path, ':');
      if at.None? {
        break;
      }
      var tail := path[at.value + 1..];
      if tail == "" || exists k | 0 <= k < |tail| :: !IsDigit(tail[k]) {
        break;
      }
      path := path[..at.value];
    }
  }

  lemma {:induction false} LastBefore(head: string, c: char, tail: string)
    requires c !in tail
    ensures LastOf(head + [c] + tail, c) == Some(|head|)
    decreases |tail|
  {
    var s := head + [c] + tail;
    if tail != "" {
      LastBefore(head, c, tail[..|tail| - 1]);
      assert s[..|s| - 1] == head + [c] + tail[..|tail| - 1];
    }
  }

  /** Any path comes back from behind one group of digits, whatever it holds. */
  lemma PeelsOneGroup(path: string, number: string)
    requires IsNumber(number)
    ensures PeelOnce(path + ":" + number) == path
  {
    LastBefore(path, ':', number);
    assert (path + ":" + number)[|path| + 1..] == number && (path + ":" + number)[..|path|] == path;
  }

  /** `path:line:col` gives back the path, whatever the path and the digits. */
  lemma PositionIsPeeled(path: string, line: string, col: string)
    requires IsNumber(line) && IsNumber(col)
    ensures Peel(path + ":" + line + ":" + col) == path
  {
    PeelsOneGroup(path + ":" + line, col);
    PeelsOneGroup(path, line);
  }

  predicate EndsInNumber(path: string) {
    PeelOnce(path) != path
  }

  lemma NumberAtTheEnd(path: string)
    ensures EndsInNumber(path) <==> exists head, number :: IsNumber(number) && path == head + ":" + number
  {
    if EndsInNumber(path) {
      var at := LastOf(path, ':').value;
      assert path == path[..at] + ":" + path[at + 1..];
    }
    if exists head, number :: IsNumber(number) && path == head + ":" + number {
      var head, number :| IsNumber(number) && path == head + ":" + number;
      PeelsOneGroup(head, number);
    }
  }

  /** `path:line` gives back the path exactly when the path itself does not end
    * in such a group: the second round cannot tell a line from a file name. */
  lemma LineIsPeeledIff(path: string, line: string)
    requires IsNumber(line)
    ensures Peel(path + ":" + line) == path <==> !EndsInNumber(path)
  {
    PeelsOneGroup(path, line);
  }

  /** A path that does end in one loses it along with the line. */
  lemma LineOfANumberedPath()
    ensures Peel("a:1" + ":" + "2") == "a"
  {
    PeelsOneGroup("a:1", "2");
    assert "a" + ":" + "1" == "a:1";
    PeelsOneGroup("a", "1");
  }

  // ---- tokens ----

  /** `split(char::is_whitespace)`. */
  function Tokens(s: string): (r: seq<string>)
    ensures r != []
  {
    if s == "" then [""]
    else if IsSpace(s[0]) then [""] + Tokens(s[1..])
    else Push(s[0], Tokens(s[1..]))
  }

  /** A character in front of the first token. */
  function Push(c: char, tokens: seq<string>): (r: seq<string>)
    requires tokens != []
    ensures r != []
  {
    [[c] + tokens[0]] + tokens[1..]
  }

  lemma PushJoins(c: char, a: seq<string>, b: seq<string>)
    requires a != []
    ensures Push(c, a + b) == Push(c, a) + b
  {
  }

  /** White space of any kind separates tokens. */
  lemma {:induction false} TokensSplitAt(a: string, space: char, b: string)
    requires IsSpace(space)
    ensures Tokens(a + [space] + b) == Tokens(a) + Tokens(b)
  {
    var s := a + [space] + b;
    if a == "" {
      assert s[0] == space && s[1..] == b;
      assert Tokens(s) == [""] + Tokens(b);
    } else {
      TokensSplitAt(a[1..], space, b);
      assert s[0] == a[0] && s[1..] == a[1..] + [space] + b;
      if IsSpace(a[0]) {
        Regroup([""], Tokens(a[1..]), Tokens(b));
      } else {
        PushJoins(a[0], Tokens(a[1..]), Tokens(b));
      }
    }
  }

  predicate LeadingPunctuation(c: char) {
    c in "([{\"'`<"
  }

  predicate TrailingPunctuation(c: char) {
    c in ")]}\"'`>.,;!?:"
  }

  function TrimStart(s: string): string {
    if s != "" && LeadingPunctuation(s[0]) then TrimStart(s[1..]) else s
  }

  function TrimEnd(s: string): string {
    if s != "" && TrailingPunctuation(s[|s| - 1]) then TrimEnd(s[..|s| - 1]) else s
  }

  function Candidate(token: string): string {
    Peel(TrimEnd(TrimStart(token)))
  }

  predicate StartsWith(s: string, prefix: string) {
    |s| >= |prefix| && s[..|prefix|] == prefix
  }

  predicate LooksLikePath(s: string) {
    match LastOf(s, '/')
    case None => false
    case Some(at) => !StartsWith(s, "http") && '.' in s[at + 1..]
  }

  /** Shaped like a path, and not in the repository; `present` is what exists. */
  predicate Missing(present: string -> bool, candidate: string) {
    LooksLikePath(candidate) && !present(candidate)
  }

  /** The wanted images of the tokens under `f`, each once, in order of first
    * appearance. */
  function Collect(f: string -> string, wanted: string -> bool, tokens: seq<string>): seq<string> {
    if tokens == [] then []
    else
      var before := Collect(f, wanted, tokens[..|tokens| - 1]);
      var image := f(tokens[|tokens| - 1]);
      if wanted(image) && image !in before then before + [image] else before
  }

  function MissingFrom(present: string -> bool): string -> bool {
    candidate => Missing(present, candidate)
  }

  function Unresolved(present: string -> bool, tokens: seq<string>): seq<string> {
    Collect(Candidate, MissingFrom(present), tokens)
  }

  /** `unresolved_paths`. */
  method UnresolvedPaths(response: string, present: string -> bool) returns (unresolved: seq<string>)
    ensures unresolved == Unresolved(present, Tokens(Flatten(response)))
  {
    var flattened := FlattenMarkdownLinks(response);
    var tokens := Tokens(flattened);
    unresolved := [];
    for i := 0 to |tokens|
      invariant unresolved == Unresolved(present, tokens[..i])
    {
      assert tokens[..i + 1][..i] == tokens[..i];
      var candidate := PeelLineCol(TrimEnd(TrimStart(tokens[i])));
      if LooksLikePath(candidate) && !present(candidate) && candidate !in unresolved {
        unresolved := unresolved + [candidate];
      }
    }
    assert tokens[..|tokens|] == tokens;
  }

  /** Some token has the image. */
  predicate Named(f: string -> string, tokens: seq<string>, image: string) {
    exists i :: 0 <= i < |tokens| && f(tokens[i]) == image
  }

  lemma NamedByOneMore(f: string -> string, tokens: seq<string>, token: string, image: string)
    ensures Named(f, tokens + [token], image) <==> Named(f, tokens, image) || f(token) == image
  {
    var longer := tokens + [token];
    if Named(f, tokens, image) {
      var i :| 0 <= i < |tokens| && f(tokens[i]) == image;
      assert f(longer[i]) == image;
    }
    assert longer[|tokens|] == token;
    if Named(f, longer, image) {
      var i :| 0 <= i < |longer| && f(longer[i]) == image;
      assert i < |tokens| ==> f(tokens[i]) == image;
    }
  }

  lemma {:induction false} EachWantedOnce(f: string -> string, wanted: string -> bool, tokens: seq<string>, image: string)
    ensures image in Collect(f, wanted, tokens) <==> wanted(image) && Named(f, tokens, image)
    ensures Distinct(Collect(f, wanted, tokens))
    decreases |tokens|
  {
    if tokens != [] {
      var (init, last) := (tokens[..|tokens| - 1], tokens[|tokens| - 1]);
      EachWantedOnce(f, wanted, init, image);
      NamedByOneMore(f, init, last, image);
      assert tokens == init + [last];
    }
  }

  /** Every missing path a response names is reported, each once, and nothing
    * else is. */
  lemma EachMissingPathOnce(present: string -> bool, tokens: seq<string>, path: string)
    ensures path in Unresolved(present, tokens) <==> Missing(present, path) && Named(Candidate, tokens, path)
    ensures Distinct(Unresolved(present, tokens))
  {
    EachWantedOnce(Candidate, MissingFrom(present), tokens, path);
  }

  // ---- a path as it is written ----

  /** A path has a slash, a dot in what follows the last slash, and is no
    * address. */
  lemma LooksLikePathIff(s: string)
    ensures LooksLikePath(s) <==>
            !StartsWith(s, "http") && exists dir, name :: s == dir + "/" + name && '/' !in name && '.' in name
  {
    LastOfIsLast(s, '/');
    if LooksLikePath(s) {
      var at := LastOf(s, '/').value;
      assert s == s[..at] + "/" + s[at + 1..];
    }
    if exists dir, name :: s == dir + "/" + name && '/' !in name && '.' in name {
      var dir, name :| s == dir + "/" + name && '/' !in name && '.' in name;
      LastBefore(dir, '/', name);
      assert s[|dir| + 1..] == name;
    }
  }

  lemma {:induction false} LastOfIsLast(s: string, c: char)
    ensures match LastOf(s, c)
            case None => c !in s
            case Some(at) => forall k | at < k < |s| :: s[k] != c
    decreases |s|
  {
    if s != "" && s[|s| - 1] != c {
      LastOfIsLast(s[..|s| - 1], c);
      assert s == s[..|s| - 1] + [s[|s| - 1]];
    }
  }

  predicate AllIn(s: string, characters: string) {
    forall i | 0 <= i < |s| :: s[i] in characters
  }

  lemma {:induction false} OpeningIsTrimmed(opening: string, rest: string)
    requires AllIn(opening, "([{\"'`<") && (rest == "" || rest[0] !in "([{\"'`<")
    ensures TrimStart(opening + rest) == rest
  {
    if opening == "" {
      assert opening + rest == rest;
    } else {
      assert (opening + rest)[1..] == opening[1..] + rest;
      OpeningIsTrimmed(opening[1..], rest);
    }
  }

  lemma {:induction false} ClosingIsTrimmed(rest: string, closing: string)
    requires AllIn(closing, ")]}\"'`>.,;!?:") && (rest == "" || rest[|rest| - 1] !in ")]}\"'`>.,;!?:")
    ensures TrimEnd(rest + closing) == rest
    decreases |closing|
  {
    if closing == "" {
      assert rest + closing == rest;
    } else {
      assert (rest + closing)[..|rest + closing| - 1] == rest + closing[..|closing| - 1];
      ClosingIsTrimmed(rest, closing[..|closing| - 1]);
    }
  }

  /** The path is written out: it neither begins nor ends in punctuation. */
  predicate Plain(path: string) {
    path != "" && path[0] !in "([{\"'`<" && path[|path| - 1] !in ")]}\"'`>.,;!?:"
  }

  /** Brackets and quotes before a written path and punctuation after it are
    * taken off, and a position with them. */
  lemma WrappedIsUnwrapped(opening: string, path: string, position: string, closing: string)
    requires Plain(path) && !EndsInNumber(path) && Plain(path + position)
    requires AllIn(opening, "([{\"'`<") && AllIn(closing, ")]}\"'`>.,;!?:")
    requires IsPosition(position)
    ensures Candidate(opening + (path + position + closing)) == path
  {
    var rest := path + position + closing;
    assert rest[0] == path[0];
    OpeningIsTrimmed(opening, rest);
    ClosingIsTrimmed(path + position, closing);
    PositionComesOff(path, position);
  }

  /** Nothing, a line, or a line and a column. */
  ghost predicate IsPosition(s: string) {
    || s == ""
    || (exists line :: IsNumber(line) && s == ":" + line)
    || (exists line, col :: IsNumber(line) && IsNumber(col) && s == ":" + line + ":" + col)
  }

  lemma PositionComesOff(path: string, position: string)
    requires IsPosition(position) && !EndsInNumber(path)
    ensures Peel(path + position) == path
  {
    if position == "" {
      assert path + position == path;
    } else if exists line :: IsNumber(line) && position == ":" + line {
      var line :| IsNumber(line) && position == ":" + line;
      assert path + position == path + ":" + line;
      LineIsPeeledIff(path, line);
    } else {
      var line, col :| IsNumber(line) && IsNumber(col) && position == ":" + line + ":" + col;
      assert path + position == path + ":" + line + ":" + col;
      PositionIsPeeled(path, line, col);
    }
  }

  /** A written path that does not exist is reported, whatever brackets, quotes,
    * position and punctuation stand around it. */
  lemma WrittenPathIsReported(
      present: string -> bool, tokens: seq<string>, k: nat, opening: string, path: string, position: string, closing: string)
    requires k < |tokens| && tokens[k] == opening + (path + position + closing)
    requires Plain(path) && !EndsInNumber(path) && Plain(path + position) && IsPosition(position)
    requires AllIn(opening, "([{\"'`<") && AllIn(closing, ")]}\"'`>.,;!?:")
    ensures path in Unresolved(present, tokens) <==> LooksLikePath(path) && !present(path)
  {
    WrappedIsUnwrapped(opening, path, position, closing);
    assert Named(Candidate, tokens, path);
    EachMissingPathOnce(present, tokens, path);
  }

  // ---- links in a response ----

  lemma {:induction false} AllSplits(f: Piece -> string, pieces: seq<Piece>, i: nat)
    requires i < |pieces|
    ensures All(f, pieces) == All(f, pieces[..i]) + (f(pieces[i]) + All(f, pieces[i + 1..]))
    decreases i
  {
    if i > 0 {
      AllSplits(f, pieces[1..], i - 1);
      assert pieces[1..][..i - 1] == pieces[..i][1..] && pieces[1..][i..] == pieces[i + 1..];
      Regroup(f(pieces[0]), All(f, pieces[..i][1..]), f(pieces[i]) + All(f, pieces[i + 1..]));
    }
  }

  lemma SpacedOut(a: string, words: string, target: string, b: string)
    ensures a + (Spaced("", words, target) + b) == ((a + " " + words) + " " + target) + " " + b
  {
  }

  /** The two halves of a link are tokenized on their own, whatever surrounds
    * the link. */
  lemma LinkHalvesStandAlone(pieces: seq<Piece>, i: nat)
    requires i < |pieces| && pieces[i].Linked?
    ensures Tokens(All(Flat, pieces)) == Tokens(All(Flat, pieces[..i])) + Tokens(pieces[i].words)
                                         + Tokens(pieces[i].target) + Tokens(All(Flat, pieces[i + 1..]))
  {
    var (a, b) := (All(Flat, pieces[..i]), All(Flat, pieces[i + 1..]));
    var (words, target) := (pieces[i].words, pieces[i].target);
    AllSplits(Flat, pieces, i);
    SpacedOut(a, words, target, b);
    TokensSplitAt((a + " " + words) + " " + target, ' ', b);
    TokensSplitAt(a + " " + words, ' ', target);
    TokensSplitAt(a, ' ', words);
  }

  lemma {:induction false} OneToken(s: string)
    requires forall i | 0 <= i < |s| :: !IsSpace(s[i])
    ensures Tokens(s) == [s]
  {
    if s != "" {
      OneToken(s[1..]);
      assert [s[0]] + s[1..] == s;
    }
  }

  /** A link whose target is a missing path is always found, whatever is written
    * around it. */
  lemma MissingTargetIsReported(pieces: seq<Piece>, i: nat, present: string -> bool)
    requires Readable(pieces) && i < |pieces| && pieces[i].Linked?
    requires forall k | 0 <= k < |pieces[i].target| :: !IsSpace(pieces[i].target[k])
    requires Missing(present, Candidate(pieces[i].target))
    ensures Candidate(pieces[i].target) in Unresolved(present, Tokens(Flatten(All(Source, pieces))))
  {
    var target := pieces[i].target;
    EveryLinkIsOpened(pieces);
    LinkHalvesStandAlone(pieces, i);
    OneToken(target);
    var before := Tokens(All(Flat, pieces[..i])) + Tokens(pieces[i].words);
    var tokens := Tokens(All(Flat, pieces));
    assert tokens[|before|] == target;
    assert Named(Candidate, tokens, Candidate(target));
    EachMissingPathOnce(present, tokens, Candidate(target));
  }
}
