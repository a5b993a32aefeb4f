/** A form posted to the shell, all the way to the worker's host and back:
  * `control_route` and `exchange` (crates/desktop-shell/src/workers.rs), the
  * bytes on the socket, and `serve_connection`, `parse_request` and `dispatch`
  * (crates/desktop-shell/src/worker.rs).
  */
module ControlSession {
  import opened Common
  import opened Characters
  import opened TurnHost
  import opened ControlWire
  import opened ControlRoute
  import opened ControlServer

  /** A JSON writer and reader; `read` gives `None` for a line that is no JSON
    * object. */
  datatype Json = Json(write: Fields -> seq<Byte>, read: seq<Byte> -> Option<Fields>)

  /** Objects are written on one line, read back as they were, and a text value
    * stands in the line with at least its own bytes and two quotes. */
  ghost predicate Sound(json: Json) {
    && (forall fields :: NEWLINE !in json.write(fields) && json.read(json.write(fields) + [NEWLINE]) == Some(fields))
    && (forall fields: Fields, name | name in fields && fields[name].Text? :: |json.write(fields)| >= Bytes(fields[name].text) + 2)
  }

  /** The worker as a connection sees it. */
  datatype Worker = Worker(host: Host, triggered: bool)

  function Serving(json: Json, token: string, readers: Readers, writes: nat -> bool): Server<Worker, ControlCommand, Answer> {
    Server(
      line => match json.read(line) { case None => Unauthorized case Some(fields) => ParseRequest(fields, token, readers) },
      error => Refused(error),
      (w: Worker, command: ControlCommand) =>
        (var (host, answer) := Dispatch(w.host, command);
         Step(Worker(host, w.triggered || command.Shutdown?), answer, command.Shutdown?)),
      (w: Worker) => w.triggered,
      writes)
  }

  // ---- who is answered ----

  predicate CarriesToken(json: Json, line: seq<Byte>, token: string) {
    match json.read(line)
    case None => false
    case Some(fields) => "token" in fields && fields["token"] == Text(token)
  }

  lemma ServableIff(json: Json, token: string, readers: Readers, writes: nat -> bool, line: seq<Byte>)
    ensures Servable(Serving(json, token, readers, writes), line) <==>
            |line| <= MAX_REQUEST_BYTES && CarriesToken(json, line, token)
  {
    match json.read(line)
    case None =>
    case Some(fields) => UnansweredIffWrongToken(fields, token, readers);
  }

  /** Whatever bytes a client sends: every answered line is short enough and
    * carries the worker's token, and a line that is not answered while the
    * connection was still going on is too long or does not carry it. */
  lemma OnlyTheTokenIsAnswered(
      json: Json, token: string, readers: Readers, writes: nat -> bool,
      start: Worker, stream: seq<Byte>, answers: seq<Answer>, end: Worker, shutdown: bool)
    requires Ends(Serving(json, token, readers, writes), start, Lines(stream), answers, end, shutdown)
    ensures forall i: nat | i < |answers| ::
              |Lines(stream)[i]| <= MAX_REQUEST_BYTES && CarriesToken(json, Lines(stream)[i], token)
    ensures var (server, lines, n) := (Serving(json, token, readers, writes), Lines(stream), |answers|);
            n < |lines| && (n == 0 || GoesOn(server, start, lines, n - 1)) ==>
              |lines[n]| > MAX_REQUEST_BYTES || !CarriesToken(json, lines[n], token)
  {
    var (server, lines) := (Serving(json, token, readers, writes), Lines(stream));
    forall i: nat | i < |answers| ensures |lines[i]| <= MAX_REQUEST_BYTES && CarriesToken(json, lines[i], token) {
      assert Servable(server, lines[i]);
      ServableIff(json, token, readers, writes, lines[i]);
    }
    if |answers| < |lines| {
      ServableIff(json, token, readers, writes, lines[|answers|]);
    }
  }

  /** Only an accepted `shutdown` ends a connection whose answers get through; it
    * leaves the worker shutting down, with its exit triggered. A request that is
    * no command changes nothing. */
  lemma OnlyShutdownCloses(json: Json, token: string, readers: Readers, writes: nat -> bool, w: Worker, line: seq<Byte>)
    requires CarriesToken(json, line, token)
    ensures var (step, parsed) := (AnswerLine(Serving(json, token, readers, writes), w, line), ParseRequest(json.read(line).value, token, readers));
            && (step.close <==> parsed.Command? && parsed.command.Shutdown?)
            && (step.close ==> step.host.triggered && step.host.host.slot.state == ShuttingDown)
            && (!step.close ==> step.host.triggered == w.triggered)
            && (!parsed.Command? ==> step.host == w && step.answer.Refused?)
  {
    UnansweredIffWrongToken(json.read(line).value, token, readers);
  }

  // ---- the whole way ----

  /** What `exchange` writes. */
  function RequestLine(json: Json, token: string, form: Form, command: string): seq<Byte>
    requires FormRow(command).Some?
  {
    json.write(Encode(token, command, Collected(form, FormRow(command).value))) + [NEWLINE]
  }

  lemma WrittenOnOneLine(body: seq<Byte>)
    requires NEWLINE !in body
    ensures Lines(body + [NEWLINE]) == [body + [NEWLINE]]
  {
    var line := body + [NEWLINE];
    assert line[..|line| - 1] == body;
    FirstLineIs(line, |line|);
    OneLine(line);
  }

  /** What the client gets for one request line that fits. */
  predicate AnsweredAsMeant(form: Form, command: string, readers: Readers, start: Worker, end: Worker, answers: seq<Answer>)
    requires FormRow(command).Some? && FirstMissing(form, FormRow(command).value).None?
  {
    && |answers| == 1
    && if Acceptable(form, command, readers)
       then (end.host, answers[0]) == Dispatch(start.host, Intended(form, command, readers))
       else end == start && answers[0].Refused? && answers[0].error in {TOO_LONG, BAD_BUDGET, BAD_OPTION}
  }

  /** The line is read as the form meant it. */
  lemma LineIsReadAsMeant(
      json: Json, token: string, readers: Readers, writes: nat -> bool, form: Form, command: string, start: Worker)
    requires Sound(json) && FormRow(command).Some? && FirstMissing(form, FormRow(command).value).None?
    ensures var (server, line) := (Serving(json, token, readers, writes), RequestLine(json, token, form, command));
            && (Servable(server, line) <==> |line| <= MAX_REQUEST_BYTES)
            && AnsweredAsMeant(form, command, readers, start,
                               AnswerLine(server, start, line).host, [AnswerLine(server, start, line).answer])
  {
    ForwardedFormIsReadAsMeant(form, command, token, readers);
    var fields := Encode(token, command, Collected(form, FormRow(command).value));
    assert json.read(RequestLine(json, token, form, command)) == Some(fields);
    assert fields["token"] == Text(token);
  }

  lemma OneRequest(
      json: Json, token: string, readers: Readers, writes: nat -> bool, form: Form, command: string,
      start: Worker, answers: seq<Answer>, end: Worker, shutdown: bool)
    requires Sound(json) && FormRow(command).Some? && FirstMissing(form, FormRow(command).value).None?
    requires var stream := RequestLine(json, token, form, command);
             Ends(Serving(json, token, readers, writes), start, Lines(stream), answers, end, shutdown)
    ensures if |RequestLine(json, token, form, command)| <= MAX_REQUEST_BYTES
            then AnsweredAsMeant(form, command, readers, start, end, answers)
            else answers == [] && end == start
  {
    WrittenOnOneLine(json.write(Encode(token, command, Collected(form, FormRow(command).value))));
    var (server, line) := (Serving(json, token, readers, writes), RequestLine(json, token, form, command));
    OneLineServed(server, start, line, answers, end, shutdown);
    LineIsReadAsMeant(json, token, readers, writes, form, command, start);
  }

  /** A posted form from the route to the host and back. It is forwarded when its
    * fields are there; the command it means is then dispatched, once, exactly
    * when the line written fits the worker's bound and the arguments are
    * acceptable. A line that does not fit goes unanswered and changes nothing. */
  method ExchangeForm(form: Form, json: Json, token: string, readers: Readers, writes: nat -> bool, start: Worker)
    returns (route: Route, end: Worker, answers: seq<Answer>)
    requires Sound(json)
    ensures !route.Forwarded? ==> end == start && answers == []
    ensures route.Forwarded? <==>
            Addressed(form) && FormRow(form["command"]).Some? && FirstMissing(form, FormRow(form["command"]).value).None?
    ensures route.Forwarded? ==>
              if |RequestLine(json, token, form, form["command"])| <= MAX_REQUEST_BYTES
              then AnsweredAsMeant(form, form["command"], readers, start, end, answers)
              else answers == [] && end == start
  {
    route := RouteForm(form);
    if !route.Forwarded? {
      return route, start, [];
    }
    var line := json.write(Encode(token, route.command, route.arguments)) + [NEWLINE];
    var shutdown;
    end, answers, shutdown := ServeConnection(Serving(json, token, readers, writes), line, start);
    OneRequest(json, token, readers, writes, form, route.command, start, answers, end, shutdown);
  }

  /** The two bounds disagree: a text of exactly the length the argument check
    * allows never fits the line, so the message is acceptable and yet the
    * connection is closed without an answer. */
  lemma LongestMessageGoesUnanswered(json: Json, token: string, readers: Readers, form: Form)
    requires Sound(json) && "text" in form && Bytes(form["text"]) == MAX_REQUEST_BYTES
    ensures FirstMissing(form, FormRow("message").value).None? && Acceptable(form, "message", readers)
    ensures |RequestLine(json, token, form, "message")| > MAX_REQUEST_BYTES
  {
    var row := FormRow("message").value;
    CollectOne(form, row[0]);
    assert row[..0] == [] && row == [row[0]];
    var fields := Encode(token, "message", Collected(form, row));
    assert fields["text"] == Text(form["text"]);
  }
}
