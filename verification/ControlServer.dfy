/** One control connection: `serve_connection` and `tokens_match` of
  * crates/desktop-shell/src/worker.rs, over whatever bytes the client sends.
  * What a line parses to and what the host answers are parameters.
  */
module ControlServer {
  import opened ControlWire

  type Byte = bv8

  const NEWLINE: Byte := 10

  /** What one answered line leads to. */
  datatype Step<S, A> = Step(host: S, answer: A, close: bool)

  /** The worker behind the socket, and a client that may stop reading: `writes`
    * says whether the n-th answer could be written. */
  datatype Server<!S, !C, !A> = Server(
    parse: seq<Byte> -> Parsed<C>,
    refuse: string -> A,
    dispatch: (S, C) -> Step<S, A>,
    triggered: S -> bool,
    writes: nat -> bool)

  // ---- lines ----

  /** The length of the first newline-ended line, newline included. */
  function FirstLine(stream: seq<Byte>): (n: nat)
    ensures n <= |stream|
    ensures n == 0 <==> NEWLINE !in stream
    ensures n > 0 ==> stream[n - 1] == NEWLINE && NEWLINE !in stream[..n - 1]
  {
    if stream == [] then 0
    else if stream[0] == NEWLINE then 1
    else
      var n := FirstLine(stream[1..]);
      if n == 0 then 0 else
        assert stream[..n] == [stream[0]] + stream[1..][..n - 1];
        n + 1
  }

  /** The complete lines of a stream; a torn last one is not among them. */
  function Lines(stream: seq<Byte>): seq<seq<Byte>>
    decreases |stream|
  {
    var n := FirstLine(stream);
    if n == 0 then [] else [stream[..n]] + Lines(stream[n..])
  }

  /** `take(MAX + 1).read_until(newline)`. */
  function ReadUntil(stream: seq<Byte>): seq<Byte> {
    var n := FirstLine(Window(stream));
    if n == 0 then Window(stream) else Window(stream)[..n]
  }

  function Window(stream: seq<Byte>): seq<Byte> {
    if |stream| > MAX_REQUEST_BYTES + 1 then stream[..MAX_REQUEST_BYTES + 1] else stream
  }

  predicate Complete(line: seq<Byte>) {
    line != [] && line[|line| - 1] == NEWLINE && |line| <= MAX_REQUEST_BYTES
  }

  lemma FittingLineIsRead(stream: seq<Byte>)
    requires 0 < FirstLine(stream) <= |Window(stream)|
    ensures FirstLine(Window(stream)) == FirstLine(stream) && ReadUntil(stream) == stream[..FirstLine(stream)]
  {
    var n := FirstLine(stream);
    assert Window(stream)[..n - 1] == stream[..n - 1];
    FirstLineIs(Window(stream), n);
    assert Window(stream)[..n] == stream[..n];
  }

  lemma ReadLineFits(stream: seq<Byte>)
    requires FirstLine(Window(stream)) > 0
    ensures FirstLine(stream) == FirstLine(Window(stream))
  {
    var m := FirstLine(Window(stream));
    assert Window(stream)[..m - 1] == stream[..m - 1];
    FirstLineIs(stream, m);
  }

  /** A read is complete exactly when the stream's first line fits; it is then
    * that line. */
  lemma ReadIsTheFirstLine(stream: seq<Byte>)
    ensures Complete(ReadUntil(stream)) <==> Lines(stream) != [] && |Lines(stream)[0]| <= MAX_REQUEST_BYTES
    ensures Complete(ReadUntil(stream)) ==>
              ReadUntil(stream) == Lines(stream)[0] && Lines(stream[|ReadUntil(stream)|..]) == Lines(stream)[1..]
  {
    if 0 < FirstLine(stream) <= |Window(stream)| {
      FittingLineIsRead(stream);
    } else if FirstLine(Window(stream)) > 0 {
      ReadLineFits(stream);
    }
  }

  lemma {:induction false} FirstLineIs(s: seq<Byte>, n: nat)
    requires 0 < n <= |s| && s[n - 1] == NEWLINE && NEWLINE !in s[..n - 1]
    ensures FirstLine(s) == n
  {
    if n > 1 {
      assert s[0] in s[..n - 1];
      assert s[1..][..n - 2] == s[..n - 1][1..];
      FirstLineIs(s[1..], n - 1);
    }
  }

  lemma OneLine(line: seq<Byte>)
    requires line != [] && FirstLine(line) == |line|
    ensures Lines(line) == [line]
  {
    assert line[..|line|] == line;
    assert line[|line|..] == [];
    assert Lines([]) == [];
  }

  // ---- what should happen ----

  /** Lines the worker answers: short enough, and from someone with the token. */
  predicate Servable<S, C, A>(server: Server<S, C, A>, line: seq<Byte>) {
    |line| <= MAX_REQUEST_BYTES && !server.parse(line).Unauthorized?
  }

  function AnswerLine<S, C, A>(server: Server<S, C, A>, host: S, line: seq<Byte>): Step<S, A> {
    match server.parse(line)
    case Command(command) => server.dispatch(host, command)
    case Invalid(error) => Step(host, server.refuse(error), false)
    case Unauthorized => Step(host, server.refuse(""), true)
  }

  /** The host after these lines, in order. */
  function After<S, C, A>(server: Server<S, C, A>, host: S, lines: seq<seq<Byte>>): S {
    if lines == [] then host
    else AnswerLine(server, After(server, host, lines[..|lines| - 1]), lines[|lines| - 1]).host
  }

  /** The step the line at `i` leads to. */
  function StepAt<S, C, A>(server: Server<S, C, A>, host: S, lines: seq<seq<Byte>>, i: nat): Step<S, A>
    requires i < |lines|
  {
    AnswerLine(server, After(server, host, lines[..i]), lines[i])
  }

  /** The connection goes on after the answer at `i`. */
  predicate GoesOn<S, C, A>(server: Server<S, C, A>, host: S, lines: seq<seq<Byte>>, i: nat)
    requires i < |lines|
  {
    !StepAt(server, host, lines, i).close && server.writes(i)
  }

  /** A connection that served exactly the first `k` lines: all of them were
    * servable, it went on after each but the last, and it ended for a reason. */
  ghost predicate Served<S, C, A>(server: Server<S, C, A>, host: S, lines: seq<seq<Byte>>, k: nat) {
    && k <= |lines|
    && (forall i: nat | i < k :: Servable(server, lines[i]))
    && (forall i: nat | i + 1 < k :: GoesOn(server, host, lines, i))
    && (|| (k > 0 && !GoesOn(server, host, lines, k - 1))
        || k == |lines|
        || !Servable(server, lines[k]))
  }

  /** Each answer is the one its line leads to. */
  ghost predicate Answered<S, C, A>(server: Server<S, C, A>, start: S, lines: seq<seq<Byte>>, answers: seq<A>) {
    |answers| <= |lines| && forall i: nat | i < |answers| :: answers[i] == StepAt(server, start, lines, i).answer
  }

  /** The answers given while the connection still goes on. */
  ghost predicate SoFar<S, C, A>(server: Server<S, C, A>, start: S, lines: seq<seq<Byte>>, answers: seq<A>, host: S) {
    && Answered(server, start, lines, answers)
    && host == After(server, start, lines[..|answers|])
    && forall i: nat | i < |answers| :: Servable(server, lines[i]) && GoesOn(server, start, lines, i)
  }

  /** How a connection may end: some first lines were served, each with its own
    * answer, the host is what their commands made of it, and `shutdown` tells
    * whether the last one shut the worker down. */
  ghost predicate Ends<S, C, A>(
      server: Server<S, C, A>, start: S, lines: seq<seq<Byte>>, answers: seq<A>, host: S, shutdown: bool)
  {
    && Served(server, start, lines, |answers|)
    && Answered(server, start, lines, answers)
    && host == After(server, start, lines[..|answers|])
    && (shutdown <==> answers != [] && StepAt(server, start, lines, |answers| - 1).close && server.triggered(host))
  }

  lemma OneMore<S, C, A>(server: Server<S, C, A>, start: S, lines: seq<seq<Byte>>, answers: seq<A>, host: S)
    requires SoFar(server, start, lines, answers, host)
    requires |answers| < |lines| && Servable(server, lines[|answers|])
    ensures var k := |answers|;
            var step := AnswerLine(server, host, lines[k]);
            && step == StepAt(server, start, lines, k)
            && (if GoesOn(server, start, lines, k) then SoFar(server, start, lines, answers + [step.answer], step.host)
                else Ends(server, start, lines, answers + [step.answer], step.host, step.close && server.triggered(step.host)))
  {
    var k := |answers|;
    assert lines[..k + 1][..k] == lines[..k];
  }

  lemma NoMore<S, C, A>(server: Server<S, C, A>, start: S, lines: seq<seq<Byte>>, answers: seq<A>, host: S)
    requires SoFar(server, start, lines, answers, host)
    requires |answers| == |lines| || !Servable(server, lines[|answers|])
    ensures Ends(server, start, lines, answers, host, false)
  {
    assert answers != [] ==> GoesOn(server, start, lines, |answers| - 1);
  }

  /** A read from where `n` lines have been consumed. */
  lemma NextLine(rest: seq<Byte>, lines: seq<seq<Byte>>, n: nat)
    requires n <= |lines| && Lines(rest) == lines[n..]
    ensures var line := ReadUntil(rest);
            if Complete(line) then n < |lines| && lines[n] == line && Lines(rest[|line|..]) == lines[n + 1..]
            else n == |lines| || |lines[n]| > MAX_REQUEST_BYTES
  {
    ReadIsTheFirstLine(rest);
    if n < |lines| {
      assert Lines(rest)[0] == lines[n];
    }
  }

  /** Serves the lines of a connection, one answer each, until it ends; true
    * once a shutdown was answered. */
  method ServeConnection<S, C, A>(server: Server<S, C, A>, stream: seq<Byte>, start: S)
    returns (host: S, answers: seq<A>, shutdown: bool)
    ensures Ends(server, start, Lines(stream), answers, host, shutdown)
  {
    ghost var lines := Lines(stream);
    host, answers := start, [];
    var rest := stream;
    while true
      invariant SoFar(server, start, lines, answers, host)
      invariant Lines(rest) == lines[|answers|..]
      decreases |rest|
    {
      var line := ReadUntil(rest);
      NextLine(rest, lines, |answers|);
      if !Complete(line) || server.parse(line).Unauthorized? {
        NoMore(server, start, lines, answers, host);
        return host, answers, false;
      }
      OneMore(server, start, lines, answers, host);
      var step := AnswerLine(server, host, line);
      var written := server.writes(|answers|);
      answers := answers + [step.answer];
      host := step.host;
      if !written || step.close {
        return host, answers, step.close && server.triggered(host);
      }
      rest := rest[|line|..];
    }
  }

  /** A connection with one line on it. */
  lemma OneLineServed<S, C, A>(server: Server<S, C, A>, start: S, line: seq<Byte>, answers: seq<A>, host: S, shutdown: bool)
    requires Ends(server, start, [line], answers, host, shutdown)
    ensures if Servable(server, line)
            then var step := AnswerLine(server, start, line); answers == [step.answer] && host == step.host
            else answers == [] && host == start
  {
    var lines := [line];
    assert lines[..0] == [] && After(server, start, []) == start;
    if answers != [] {
      assert Servable(server, lines[0]);
      assert lines[..1] == lines;
      assert answers[0] == StepAt(server, start, lines, 0).answer;
    }
  }

  // ---- tokens ----

  /** The xor of every byte pair, or-ed together. */
  function Difference(a: seq<Byte>, b: seq<Byte>): Byte
    requires |a| == |b|
  {
    if a == [] then 0 else Difference(a[..|a| - 1], b[..|b| - 1]) | (a[|a| - 1] ^ b[|b| - 1])
  }

  /** `tokens_match`, which looks at every byte whatever the first mismatch. */
  method TokensMatch(offered: seq<Byte>, expected: seq<Byte>) returns (same: bool)
    ensures same <==> offered == expected
  {
    if |offered| != |expected| {
      return false;
    }
    var difference: Byte := 0;
    for i := 0 to |offered|
      invariant difference == Difference(offered[..i], expected[..i])
    {
      assert offered[..i + 1][..i] == offered[..i] && expected[..i + 1][..i] == expected[..i];
      difference := difference | (offered[i] ^ expected[i]);
    }
    assert offered[..|offered|] == offered && expected[..|offered|] == expected;
    NoDifferenceIffEqual(offered, expected);
    same := difference == 0;
  }

  lemma {:induction false} NoDifferenceIffEqual(a: seq<Byte>, b: seq<Byte>)
    requires |a| == |b|
    ensures Difference(a, b) == 0 <==> a == b
  {
    if a != [] {
      var n := |a| - 1;
      NoDifferenceIffEqual(a[..n], b[..n]);
      OrXor(Difference(a[..n], b[..n]), a[n], b[n]);
      assert a == a[..n] + [a[n]] && b == b[..n] + [b[n]];
    }
  }

  lemma OrXor(d: Byte, x: Byte, y: Byte)
    ensures d | (x ^ y) == 0 <==> d == 0 && x == y
  {
  }
}
