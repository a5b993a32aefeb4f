/** The shell's end of a control request, and the round trip to the worker. */
module ControlRoute {
  import opened Common
  import opened Characters
  import opened TurnHost
  import opened ControlWire

  datatype Route =
    | Refusal(status: nat, message: string)
    | Forwarded(session: string, command: string, arguments: Fields)
    | StopRoute(session: string)
    | ShutdownRoute(session: string)

  const MAX_SESSION_ID_BYTES := 128

  predicate IdCharacter(c: char) {
    '0' <= c <= '9' || 'a' <= c <= 'z' || 'A' <= c <= 'Z' || c == '_' || c == '-'
  }

  predicate ValidSession(id: string) {
    id != "" && Bytes(id) <= MAX_SESSION_ID_BYTES && forall i | 0 <= i < |id| :: IdCharacter(id[i])
  }

  /** A session id names one file and no directory: it holds no separator and no
    * dot, and one byte a character. */
  lemma SessionIdIsAFileName(id: string)
    requires ValidSession(id)
    ensures id != "" && '/' !in id && '\\' !in id && '.' !in id && Bytes(id) == |id| <= MAX_SESSION_ID_BYTES
  {
    AsciiAddsItsLength("", id);
    assert "" + id == id;
  }

  /** A form field counts as given when it is there and not empty. */
  function Given(form: Form, name: string): Option<string> {
    if name in form && form[name] != "" then Some(form[name]) else None
  }

  datatype Field = Field(formName: string, socketName: string, needed: bool)

  /** The form fields each forwarded command takes, in the order the route
    * looks at them. */
  function FormRow(command: string): Option<seq<Field>> {
    match command
    case "message" => Some([Field("text", "text", true)])
    case "note" => Some([Field("text", "text", true)])
    case "resume" => Some([Field("note", "note", false)])
    case "approve" => Some([Field("proposal_id", "proposalId", true), Field("budget", "budget", false)])
    case "reject" => Some([Field("proposal_id", "proposalId", true), Field("budget", "budget", false)])
    case "checks" => Some([Field("proposal_id", "proposalId", true), Field("decisions", "decisions", true)])
    case "answer_question" =>
      Some([Field("question_id", "questionId", true), Field("answer", "answer", true),
            Field("selected_option", "selectedOption", false)])
    case "pause" => Some([])
    case "status" => Some([])
    case "verify" => Some([])
    case "continue-repair" => Some([])
    case "continue-task" => Some([Field("task_id", "taskId", true), Field("note", "note", false)])
    case _ => None
  }

  /** The first needed field of the row that the form does not give. */
  function FirstMissing(form: Form, row: seq<Field>): Option<string> {
    if row == [] then None
    else if FirstMissing(form, row[..|row| - 1]).Some? then FirstMissing(form, row[..|row| - 1])
    else if row[|row| - 1].needed && Given(form, row[|row| - 1].formName).None? then Some(row[|row| - 1].formName)
    else None
  }

  /** The row's given fields under their socket names. */
  function Collected(form: Form, row: seq<Field>): Fields {
    if row == [] then map[] else Put(form, Collected(form, row[..|row| - 1]), row[|row| - 1])
  }

  function Put(form: Form, arguments: Fields, field: Field): Fields {
    match Given(form, field.formName)
    case Some(value) => arguments[field.socketName := Text(value)]
    case None => arguments
  }

  /** The form names a session and a command. */
  predicate Addressed(form: Form) {
    && "session_id" in form && ValidSession(form["session_id"])
    && "command" in form && !Blank(form["command"])
  }

  /** Why a form goes no further, the first fault first. */
  function Complaint(form: Form): string {
    if "session_id" !in form || Blank(form["session_id"]) then "missing field: session_id"
    else if !ValidSession(form["session_id"]) then "the session id is not a Damaian session id"
    else if "command" !in form || Blank(form["command"]) then "missing field: command"
    else if FormRow(form["command"]).None? then "Unknown worker command: " + form["command"]
    else
      var missing := FirstMissing(form, FormRow(form["command"]).value);
      "missing form field: " + if missing.Some? then missing.value else ""
  }

  /** `control_route` up to the point where it talks to a worker. */
  method RouteForm(form: Form) returns (route: Route)
    ensures route.Forwarded? <==>
            && Addressed(form) && FormRow(form["command"]).Some?
            && FirstMissing(form, FormRow(form["command"]).value).None?
    ensures route.Forwarded? ==>
            route == Forwarded(form["session_id"], form["command"], Collected(form, FormRow(form["command"]).value))
    ensures route.StopRoute? <==> Addressed(form) && form["command"] == "stop"
    ensures route.ShutdownRoute? <==> Addressed(form) && form["command"] == "shutdown"
    ensures route.StopRoute? || route.ShutdownRoute? ==> route.session == form["session_id"]
    ensures route.Refusal? ==> route.status == 400 && route.message == Complaint(form)
  {
    if "session_id" !in form || Blank(form["session_id"]) {
      return Refusal(400, "missing field: session_id");
    }
    var session := form["session_id"];
    if !ValidSession(session) {
      return Refusal(400, "the session id is not a Damaian session id");
    }
    if "command" !in form || Blank(form["command"]) {
      if "command" in form { BlankIsNoCommand(form); }
      return Refusal(400, "missing field: command");
    }
    var command := form["command"];
    if command == "stop" {
      return StopRoute(session);
    }
    if command == "shutdown" {
      return ShutdownRoute(session);
    }
    var row := FormRow(command);
    if row.None? {
      return Refusal(400, "Unknown worker command: " + command);
    }
    var arguments: Fields := map[];
    for i := 0 to |row.value|
      invariant FirstMissing(form, row.value[..i]).None?
      invariant arguments == Collected(form, row.value[..i])
    {
      var field := row.value[i];
      assert row.value[..i + 1][..i] == row.value[..i];
      match Given(form, field.formName) {
        case Some(value) => arguments := arguments[field.socketName := Text(value)];
        case None =>
          if field.needed {
            MissingStays(form, row.value, i + 1);
            return Refusal(400, "missing form field: " + field.formName);
          }
      }
    }
    assert row.value[..|row.value|] == row.value;
    route := Forwarded(session, command, arguments);
  }

  lemma BlankIsNoCommand(form: Form)
    requires "command" in form && Blank(form["command"])
    ensures FormRow(form["command"]).None?
  {
    var c := form["command"];
    if c != "" { assert IsSpace(c[0]); }
  }

  lemma {:induction false} MissingStays(form: Form, row: seq<Field>, n: nat)
    requires n <= |row| && FirstMissing(form, row[..n]).Some?
    ensures FirstMissing(form, row) == FirstMissing(form, row[..n])
    decreases |row| - n
  {
    if n == |row| {
      assert row[..n] == row;
    } else {
      assert row[..n + 1][..n] == row[..n];
      MissingStays(form, row, n + 1);
    }
  }

  /** `exchange`: the request object written on the socket. */
  function Encode(token: string, command: string, arguments: Fields): Fields {
    arguments["token" := Text(token)]["command" := Text(command)]
  }

  // ---- the round trip ----

  predicate FitsIn(text: Option<string>, limit: nat) {
    text.Some? ==> Bytes(text.value) <= limit
  }

  function BudgetOf(form: Form, readers: Readers): Option<Budget> {
    if Given(form, "budget").None? || Blank(form["budget"]) then None else readers.budget(form["budget"])
  }

  function OptionOf(form: Form): Option<nat> {
    if Given(form, "selected_option").None? || Blank(form["selected_option"]) then None
    else ParseUsize(form["selected_option"])
  }

  /** The only reasons a worker has to refuse a forwarded form: a field too
    * long, a budget that does not parse, an option that is not a number. */
  predicate Acceptable(form: Form, command: string, readers: Readers) {
    match command
    case "message" => FitsIn(Given(form, "text"), MAX_REQUEST_BYTES)
    case "note" => FitsIn(Given(form, "text"), MAX_NOTE_BYTES)
    case "resume" => FitsIn(Given(form, "note"), MAX_NOTE_BYTES)
    case "answer_question" =>
      && FitsIn(Given(form, "question_id"), MAX_PROPOSAL_ID_BYTES)
      && FitsIn(Given(form, "answer"), MAX_REQUEST_BYTES)
      && (Given(form, "selected_option").Some? && !Blank(form["selected_option"]) ==> OptionOf(form).Some?)
    case "checks" =>
      FitsIn(Given(form, "proposal_id"), MAX_PROPOSAL_ID_BYTES) && FitsIn(Given(form, "decisions"), MAX_REQUEST_BYTES)
    case "continue-task" =>
      FitsIn(Given(form, "task_id"), MAX_TASK_ID_BYTES) && FitsIn(Given(form, "note"), MAX_NOTE_BYTES)
    case "pause" => true
    case "status" => true
    case "verify" => true
    case "continue-repair" => true
    case _ =>  // approve, reject
      && FitsIn(Given(form, "proposal_id"), MAX_PROPOSAL_ID_BYTES)
      && FitsIn(Given(form, "budget"), MAX_REQUEST_BYTES)
      && (Given(form, "budget").Some? && !Blank(form["budget"]) ==> readers.budget(form["budget"]).Some?)
  }

  /** What the user's form asks for, read straight from the form. */
  function Intended(form: Form, command: string, readers: Readers): ControlCommand
    requires FormRow(command).Some? && FirstMissing(form, FormRow(command).value).None?
  {
    NothingMissing(form, command);
    match command
    case "message" => Message(form["text"])
    case "note" => QueueNote(form["text"])
    case "resume" => Resume(Given(form, "note"))
    case "approve" => Approve(form["proposal_id"], BudgetOf(form, readers))
    case "reject" => Reject(form["proposal_id"], BudgetOf(form, readers))
    case "checks" => Checks(form["proposal_id"], readers.checks(form["decisions"]))
    case "answer_question" => AnswerQuestion(form["question_id"], form["answer"], OptionOf(form))
    case "pause" => Pause
    case "status" => Status
    case "verify" => Verify
    case "continue-repair" => ContinueRepair
    case _ => ContinueTask(form["task_id"], Given(form, "note"))
  }

  lemma NothingMissing(form: Form, command: string)
    requires FormRow(command).Some? && FirstMissing(form, FormRow(command).value).None?
    ensures forall field | field in FormRow(command).value && field.needed :: Given(form, field.formName).Some?
  {
    var row := FormRow(command).value;
    forall i | 0 <= i < |row| && row[i].needed
      ensures Given(form, row[i].formName).Some?
    {
      assert row[..i + 1][..i] == row[..i];
      if Given(form, row[i].formName).None? {
        assert FirstMissing(form, row[..i + 1]).Some?;
        MissingStays(form, row, i + 1);
      }
    }
  }

  lemma CollectOne(form: Form, a: Field)
    ensures Collected(form, [a]) == Put(form, map[], a)
  {
    assert [a][..0] == [];
  }

  lemma CollectTwo(form: Form, a: Field, b: Field)
    ensures Collected(form, [a, b]) == Put(form, Put(form, map[], a), b)
  {
    assert [a, b][..1] == [a];
    CollectOne(form, a);
  }

  lemma CollectThree(form: Form, a: Field, b: Field, c: Field)
    ensures Collected(form, [a, b, c]) == Put(form, Put(form, Put(form, map[], a), b), c)
  {
    assert [a, b, c][..2] == [a, b];
    CollectTwo(form, a, b);
  }

  /** The arguments a forwarded form carries, field by field. */
  function ArgumentsOf(form: Form, command: string): Fields
    requires FormRow(command).Some?
  {
    var row := FormRow(command).value;
    if row == [] then map[]
    else if |row| == 1 then Put(form, map[], row[0])
    else if |row| == 2 then Put(form, Put(form, map[], row[0]), row[1])
    else Put(form, Put(form, Put(form, map[], row[0]), row[1]), row[2])
  }

  lemma CollectedInOrder(form: Form, command: string)
    requires FormRow(command).Some?
    ensures Collected(form, FormRow(command).value) == ArgumentsOf(form, command)
  {
    var row := FormRow(command).value;
    if |row| == 1 { CollectOne(form, row[0]); assert row == [row[0]]; }
    if |row| == 2 { CollectTwo(form, row[0], row[1]); assert row == [row[0], row[1]]; }
    if |row| == 3 { CollectThree(form, row[0], row[1], row[2]); assert row == [row[0], row[1], row[2]]; }
  }

  /** The worker reads this command's arguments as the form meant them, or
    * refuses them for one of the three reasons a form can give. */
  predicate ReadAsMeant(form: Form, command: string, readers: Readers)
    requires FormRow(command).Some? && FirstMissing(form, FormRow(command).value).None?
  {
    var r := ParseCommand(command, ArgumentsOf(form, command), readers);
    if Acceptable(form, command, readers) then r == Ok(Intended(form, command, readers))
    else r.Err? && r.error in {TOO_LONG, BAD_BUDGET, BAD_OPTION}
  }

  lemma OneFieldReadAsMeant(form: Form, command: string, readers: Readers)
    requires command in {"message", "note", "resume", "pause", "status", "verify", "continue-repair"}
    requires FirstMissing(form, FormRow(command).value).None?
    ensures ReadAsMeant(form, command, readers)
  {
    NothingMissing(form, command);
    assert FormRow(command).value != [] ==> FormRow(command).value[0] in FormRow(command).value;
  }

  lemma ChecksReadAsMeant(form: Form, readers: Readers)
    requires FirstMissing(form, FormRow("checks").value).None?
    ensures ReadAsMeant(form, "checks", readers)
  {
    NothingMissing(form, "checks");
    var row := FormRow("checks").value;
    assert row[0] in row && row[1] in row;
  }

  lemma ContinueTaskReadAsMeant(form: Form, readers: Readers)
    requires FirstMissing(form, FormRow("continue-task").value).None?
    ensures ReadAsMeant(form, "continue-task", readers)
  {
    NothingMissing(form, "continue-task");
    var row := FormRow("continue-task").value;
    assert row[0] in row && row[1] in row;
  }

  lemma DecisionReadAsMeant(form: Form, command: string, readers: Readers)
    requires command in {"approve", "reject"}
    requires FirstMissing(form, FormRow(command).value).None?
    ensures ReadAsMeant(form, command, readers)
  {
    NothingMissing(form, command);
    assert FormRow(command).value[0] in FormRow(command).value;
  }

  lemma AnswerReadAsMeant(form: Form, readers: Readers)
    requires FirstMissing(form, FormRow("answer_question").value).None?
    ensures ReadAsMeant(form, "answer_question", readers)
  {
    NothingMissing(form, "answer_question");
    var row := FormRow("answer_question").value;
    assert row[0] in row && row[1] in row;
  }

  lemma EveryCommandReadAsMeant(form: Form, command: string, readers: Readers)
    requires FormRow(command).Some? && FirstMissing(form, FormRow(command).value).None?
    ensures ReadAsMeant(form, command, readers)
  {
    if command == "checks" { ChecksReadAsMeant(form, readers); }
    else if command == "continue-task" { ContinueTaskReadAsMeant(form, readers); }
    else if command in {"approve", "reject"} { DecisionReadAsMeant(form, command, readers); }
    else if command == "answer_question" { AnswerReadAsMeant(form, readers); }
    else { OneFieldReadAsMeant(form, command, readers); }
  }

  /** No row takes a field of the envelope's name. */
  lemma ArgumentsLeaveTheEnvelope(form: Form, command: string)
    requires FormRow(command).Some?
    ensures "token" !in ArgumentsOf(form, command) && "command" !in ArgumentsOf(form, command)
  {
  }

  /** Reading a request back out of its envelope. */
  lemma EnvelopeIsTakenOff(token: string, command: string, arguments: Fields, readers: Readers)
    requires "token" !in arguments && "command" !in arguments
    ensures ParseRequest(Encode(token, command, arguments), token, readers) ==
            match ParseCommand(command, arguments, readers)
            case Ok(parsed) => Command(parsed)
            case Err(error) => Invalid(error)
  {
    assert Encode(token, command, arguments) - {"token", "command"} == arguments;
  }

  /** The round trip: a form the route forwards, written as a request and read
    * by the worker, is the command the form meant, with its own field values;
    * the worker can only refuse it for length, a bad budget or a bad option,
    * never as unauthorized, unknown, missing or unexpected. */
  lemma ForwardedFormIsReadAsMeant(form: Form, command: string, token: string, readers: Readers)
    requires FormRow(command).Some? && FirstMissing(form, FormRow(command).value).None?
    ensures var r := ParseRequest(Encode(token, command, Collected(form, FormRow(command).value)), token, readers);
            if Acceptable(form, command, readers) then r == Command(Intended(form, command, readers))
            else r.Invalid? && r.error in {TOO_LONG, BAD_BUDGET, BAD_OPTION}
  {
    CollectedInOrder(form, command);
    ArgumentsLeaveTheEnvelope(form, command);
    EnvelopeIsTakenOff(token, command, ArgumentsOf(form, command), readers);
    EveryCommandReadAsMeant(form, command, readers);
  }

  /** The worker refuses what the form would send. */
  predicate WouldBeRefused(form: Form, command: string, readers: Readers)
    requires FormRow(command).Some?
  {
    var r := ParseCommand(command, ArgumentsOf(form, command), readers);
    r.Err? && r.error in {MISSING, TOO_LONG, BAD_OPTION}
  }

  lemma TextNeeded(form: Form, command: string, readers: Readers)
    requires command in {"message", "note"} && FirstMissing(form, FormRow(command).value).Some?
    ensures WouldBeRefused(form, command, readers)
  {
    MissingIsNeeded(form, FormRow(command).value);
  }

  lemma DecisionNeeded(form: Form, command: string, readers: Readers)
    requires command in {"approve", "reject"} && FirstMissing(form, FormRow(command).value).Some?
    ensures WouldBeRefused(form, command, readers)
  {
    MissingIsNeeded(form, FormRow(command).value);
  }

  lemma TaskNeeded(form: Form, readers: Readers)
    requires FirstMissing(form, FormRow("continue-task").value).Some?
    ensures WouldBeRefused(form, "continue-task", readers)
  {
    MissingIsNeeded(form, FormRow("continue-task").value);
  }

  lemma ChecksNeeded(form: Form, readers: Readers)
    requires FirstMissing(form, FormRow("checks").value).Some?
    ensures WouldBeRefused(form, "checks", readers)
  {
    MissingIsNeeded(form, FormRow("checks").value);
  }

  lemma AnswerNeeded(form: Form, readers: Readers)
    requires FirstMissing(form, FormRow("answer_question").value).Some?
    ensures WouldBeRefused(form, "answer_question", readers)
  {
    MissingIsNeeded(form, FormRow("answer_question").value);
  }

  /** The route asks for no field the worker could do without: a form it refuses
    * for a missing field the worker would have refused as well. */
  lemma MissingFieldWouldBeRefused(form: Form, command: string, readers: Readers)
    requires FormRow(command).Some? && FirstMissing(form, FormRow(command).value).Some?
    ensures WouldBeRefused(form, command, readers)
  {
    if command in {"message", "note"} { TextNeeded(form, command, readers); }
    else if command in {"approve", "reject"} { DecisionNeeded(form, command, readers); }
    else if command == "continue-task" { TaskNeeded(form, readers); }
    else if command == "checks" { ChecksNeeded(form, readers); }
    else if command == "answer_question" { AnswerNeeded(form, readers); }
    else { MissingIsNeeded(form, FormRow(command).value); }
  }

  lemma {:induction false} MissingIsNeeded(form: Form, row: seq<Field>)
    requires FirstMissing(form, row).Some?
    ensures exists field :: field in row && field.needed && Given(form, field.formName).None?
    decreases |row|
  {
    var init := row[..|row| - 1];
    if FirstMissing(form, init).Some? {
      MissingIsNeeded(form, init);
      var field :| field in init && field.needed && Given(form, field.formName).None?;
      assert field in row;
    } else {
      assert row[|row| - 1] in row;
    }
  }

  // ---- the other direction ----

  /** An accepted request carries the worker's token, a known command, and no
    * field outside that command's row of the table. */
  lemma AcceptedRequestHasNoOtherField(fields: Fields, token: string, readers: Readers)
    requires ParseRequest(fields, token, readers).Command?
    ensures "token" in fields && fields["token"] == Text(token)
    ensures "command" in fields && fields["command"].Text? && Arguments(fields["command"].text).Some?
    ensures fields.Keys <= {"token", "command"} + Arguments(fields["command"].text).value
  {
    var rest := fields - {"token", "command"};
    assert fields.Keys <= {"token", "command"} + rest.Keys;
  }

  /** A request is refused without an answer exactly when its token is not the
    * worker's. */
  lemma UnansweredIffWrongToken(fields: Fields, token: string, readers: Readers)
    ensures ParseRequest(fields, token, readers).Unauthorized? <==> !("token" in fields && fields["token"] == Text(token))
  {
  }
}
