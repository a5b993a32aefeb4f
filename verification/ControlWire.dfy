/** The control protocol's two ends: the shell's `control_route` and `exchange`
  * (crates/desktop-shell/src/workers.rs), which turn a posted form into a
  * request, and the worker's `parse_request` and `parse_command`
  * (crates/desktop-shell/src/worker.rs), which read it back.
  *
  * A request is the JSON object on its line; JSON text itself is left to
  * serde_json on both sides.
  */
module ControlWire {
  import opened Common
  import opened Characters
  import opened TurnHost

  const MAX_REQUEST_BYTES := 262144
  const MAX_NOTE_BYTES := 16384
  const MAX_PROPOSAL_ID_BYTES := 256
  const MAX_TASK_ID_BYTES := 256
  const USIZE_LIMIT := 0x1_0000_0000_0000_0000

  datatype Result<+T> = Ok(value: T) | Err(error: string) {
    predicate IsFailure() { Err? }
    function PropagateFailure<U>(): Result<U>
      requires Err?
    {
      Err(error)
    }
    function Extract(): T
      requires Ok?
    {
      value
    }
  }

  /** A JSON value, as far as the parser tells values apart. */
  datatype Value = Null | Text(text: string) | Unsigned(number: nat) | OtherNumber | Other

  type Fields = map<string, Value>

  type Form = map<string, string>

  /** What a request line is taken for. */
  datatype Parsed<+C> = Unauthorized | Invalid(error: string) | Command(command: C)

  /** The two arguments that are JSON texts of their own: how a budget and the
    * decisions of a check card are read, `None` for a text that is neither. */
  datatype Readers = Readers(budget: string -> Option<Budget>, checks: string -> Option<seq<(string, bool)>>)

  // ---- numbers ----

  function Digits(s: string): Option<nat> {
    if s == "" then Some(0)
    else if !IsDigit(s[|s| - 1]) then None
    else
      match Digits(s[..|s| - 1])
      case None => None
      case Some(n) => Some(10 * n + (s[|s| - 1] as int - '0' as int))
  }

  /** `str::parse::<usize>`: an optional plus, at least one digit, no overflow. */
  function ParseUsize(s: string): Option<nat> {
    var body := if s != "" && s[0] == '+' then s[1..] else s;
    if body == "" then None
    else
      var n := Digits(body);
      if n.Some? && n.value < USIZE_LIMIT then n else None
  }

  lemma {:induction false} DigitsIff(s: string)
    ensures Digits(s).Some? <==> forall i | 0 <= i < |s| :: IsDigit(s[i])
  {
    if s != "" {
      DigitsIff(s[..|s| - 1]);
    }
  }

  /** How `usize` is printed. */
  function Decimal(n: nat): (text: string)
    ensures text != ""
  {
    (if n < 10 then "" else Decimal(n / 10)) + [('0' as int + n % 10) as char]
  }

  lemma {:induction false} DecimalDigits(n: nat)
    ensures Digits(Decimal(n)) == Some(n) && IsDigit(Decimal(n)[0])
  {
    var text := Decimal(n);
    if n < 10 {
      assert text == "" + [('0' as int + n % 10) as char];
      assert text[..|text| - 1] == "" && Digits("") == Some(0);
    } else {
      DecimalDigits(n / 10);
      assert text[..|text| - 1] == Decimal(n / 10);
    }
  }

  /** A number is read back from its decimal text, with or without a plus,
    * exactly when it fits. */
  lemma DecimalReadsBack(n: nat)
    ensures ParseUsize(Decimal(n)) == if n < USIZE_LIMIT then Some(n) else None
    ensures ParseUsize("+" + Decimal(n)) == ParseUsize(Decimal(n))
  {
    DecimalDigits(n);
    assert ("+" + Decimal(n))[1..] == Decimal(n);
  }

  /** Only digits behind at most one plus are read as a number. */
  lemma OnlyDigitsAreNumbers(s: string)
    requires ParseUsize(s).Some?
    ensures s != ""
    ensures var body := if s[0] == '+' then s[1..] else s;
            body != "" && forall i | 0 <= i < |body| :: IsDigit(body[i])
  {
    DigitsIff(if s != "" && s[0] == '+' then s[1..] else s);
  }

  // ---- what the worker reads ----

  const TOO_LONG := "an argument is too long"
  const NOT_TEXT := "an argument is not a string"
  const MISSING := "a required argument is missing"
  const UNEXPECTED := "unexpected argument"
  const UNKNOWN := "unknown command"
  const BAD_BUDGET := "the budget is not a valid task budget"
  const BAD_OPTION := "selectedOption must be a number"

  /** The arguments of a command, by name; `None` for a command there is not. */
  function Arguments(command: string): Option<set<string>> {
    match command
    case "message" => Some({"text"})
    case "note" => Some({"text"})
    case "resume" => Some({"note"})
    case "approve" => Some({"proposalId", "budget"})
    case "reject" => Some({"proposalId", "budget"})
    case "answer_question" => Some({"questionId", "answer", "selectedOption"})
    case "checks" => Some({"proposalId", "decisions"})
    case "continue-task" => Some({"taskId", "note"})
    case "pause" => Some({})
    case "verify" => Some({})
    case "continue-repair" => Some({})
    case "stop" => Some({})
    case "shutdown" => Some({})
    case "status" => Some({})
    case _ => None
  }

  function Optional(fields: Fields, name: string, limit: nat): Result<Option<string>> {
    if name !in fields then Ok(None)
    else
      match fields[name]
      case Text(text) => if Bytes(text) <= limit then Ok(Some(text)) else Err(TOO_LONG)
      case _ => Err(NOT_TEXT)
  }

  function Needed(fields: Fields, name: string, limit: nat): Result<string> {
    var found :- Optional(fields, name, limit);
    if found.Some? then Ok(found.value) else Err(MISSING)
  }

  function BudgetIn(raw: Option<string>, readers: Readers): Result<Option<Budget>> {
    if raw.None? || Blank(raw.value) then Ok(None)
    else if readers.budget(raw.value).Some? then Ok(readers.budget(raw.value))
    else Err(BAD_BUDGET)
  }

  /** A JSON number and the route's string form are both accepted. */
  function SelectedOption(fields: Fields): Result<Option<nat>> {
    if "selectedOption" !in fields then Ok(None)
    else
      match fields["selectedOption"]
      case Null => Ok(None)
      case Unsigned(n) => if n < USIZE_LIMIT then Ok(Some(n)) else Err(BAD_OPTION)
      case Text(raw) =>
        if Blank(raw) then Ok(None)
        else if ParseUsize(raw).Some? then Ok(ParseUsize(raw))
        else Err(BAD_OPTION)
      case _ => Err(BAD_OPTION)
  }

  /** An option given as a JSON number is read like its decimal text. */
  lemma NumberReadsAsItsText(fields: Fields, n: nat)
    ensures SelectedOption(fields["selectedOption" := Unsigned(n)]) == SelectedOption(fields["selectedOption" := Text(Decimal(n))])
  {
    DecimalReadsBack(n);
    DecimalIsNotBlank(n);
    NumberReadsAs(fields, n, Decimal(n));
  }

  lemma NumberReadsAs(fields: Fields, n: nat, text: string)
    requires !Blank(text) && ParseUsize(text) == if n < USIZE_LIMIT then Some(n) else None
    ensures SelectedOption(fields["selectedOption" := Unsigned(n)]) == SelectedOption(fields["selectedOption" := Text(text)])
  {
  }

  /** No option, a null one and a blank one are all none. */
  lemma NoOptionIsNone(fields: Fields, blank: string)
    requires Blank(blank)
    ensures SelectedOption(fields - {"selectedOption"}) == Ok(None)
    ensures SelectedOption(fields["selectedOption" := Null]) == Ok(None)
    ensures SelectedOption(fields["selectedOption" := Text(blank)]) == Ok(None)
  {
  }

  lemma DecimalIsNotBlank(n: nat)
    ensures !Blank(Decimal(n))
  {
    DecimalDigits(n);
    assert !IsSpace(Decimal(n)[0]);
  }

  /** The command its fields spell, before anything is said about other fields. */
  function Build(command: string, fields: Fields, readers: Readers): Result<ControlCommand> {
    match command
    case "message" =>
      var text :- Needed(fields, "text", MAX_REQUEST_BYTES);
      Ok(Message(text))
    case "pause" => Ok(Pause)
    case "resume" =>
      var note :- Optional(fields, "note", MAX_NOTE_BYTES);
      Ok(Resume(note))
    case "note" =>
      var text :- Needed(fields, "text", MAX_NOTE_BYTES);
      Ok(QueueNote(text))
    case "approve" =>
      var id :- Needed(fields, "proposalId", MAX_PROPOSAL_ID_BYTES);
      var raw :- Optional(fields, "budget", MAX_REQUEST_BYTES);
      var budget :- BudgetIn(raw, readers);
      Ok(Approve(id, budget))
    case "reject" =>
      var id :- Needed(fields, "proposalId", MAX_PROPOSAL_ID_BYTES);
      var raw :- Optional(fields, "budget", MAX_REQUEST_BYTES);
      var budget :- BudgetIn(raw, readers);
      Ok(Reject(id, budget))
    case "answer_question" =>
      var selected :- SelectedOption(fields);
      var id :- Needed(fields, "questionId", MAX_PROPOSAL_ID_BYTES);
      var answer :- Needed(fields, "answer", MAX_REQUEST_BYTES);
      Ok(AnswerQuestion(id, answer, selected))
    case "verify" => Ok(Verify)
    case "continue-repair" => Ok(ContinueRepair)
    case "continue-task" =>
      var id :- Needed(fields, "taskId", MAX_TASK_ID_BYTES);
      var note :- Optional(fields, "note", MAX_NOTE_BYTES);
      Ok(ContinueTask(id, note))
    case "checks" =>
      var id :- Needed(fields, "proposalId", MAX_PROPOSAL_ID_BYTES);
      var decisions :- Needed(fields, "decisions", MAX_REQUEST_BYTES);
      Ok(Checks(id, readers.checks(decisions)))
    case "stop" => Ok(Stop)
    case "shutdown" => Ok(Shutdown)
    case "status" => Ok(Status)
    case _ => Err(UNKNOWN)
  }

  function ParseCommand(command: string, fields: Fields, readers: Readers): Result<ControlCommand> {
    var built :- Build(command, fields, readers);
    if Arguments(command).Some? && fields.Keys <= Arguments(command).value then Ok(built) else Err(UNEXPECTED)
  }

  /** `parse_request`, from the JSON object on the line. */
  function ParseRequest(fields: Fields, token: string, readers: Readers): Parsed<ControlCommand> {
    if "token" !in fields || fields["token"] != Text(token) then Unauthorized
    else if "command" !in fields || !fields["command"].Text? then Invalid("missing command")
    else
      match ParseCommand(fields["command"].text, fields - {"token", "command"}, readers)
      case Ok(command) => Command(command)
      case Err(error) => Invalid(error)
  }

  // ---- the worker's parser, which takes fields out of the map as it goes ----

  method Take(fields: Fields, name: string, limit: nat) returns (value: Result<Option<string>>, rest: Fields)
    ensures value == Optional(fields, name, limit) && rest == fields - {name}
  {
    rest := fields - {name};
    if name !in fields {
      return Ok(None), rest;
    }
    match fields[name] {
      case Text(text) => value := if Bytes(text) <= limit then Ok(Some(text)) else Err(TOO_LONG);
      case _ => value := Err(NOT_TEXT);
    }
  }

  method TakeNeeded(fields: Fields, name: string, limit: nat) returns (value: Result<string>, rest: Fields)
    ensures value == Needed(fields, name, limit) && rest == fields - {name}
  {
    var found;
    found, rest := Take(fields, name, limit);
    match found {
      case Err(error) => value := Err(error);
      case Ok(None) => value := Err(MISSING);
      case Ok(Some(text)) => value := Ok(text);
    }
  }

  /** An id and then an optional budget, as `approve` and `reject` take them. */
  method TakeDecision(given: Fields, readers: Readers)
    returns (value: Result<(string, Option<Budget>)>, rest: Fields)
    ensures value == (var id :- Needed(given, "proposalId", MAX_PROPOSAL_ID_BYTES);
                      var raw :- Optional(given, "budget", MAX_REQUEST_BYTES);
                      var budget :- BudgetIn(raw, readers);
                      Ok((id, budget)))
    ensures value.Ok? ==> rest == given - {"proposalId", "budget"}
  {
    var id, raw;
    id, rest := TakeNeeded(given, "proposalId", MAX_PROPOSAL_ID_BYTES);
    if id.Err? { return Err(id.error), rest; }
    raw, rest := Take(rest, "budget", MAX_REQUEST_BYTES);
    if raw.Err? { return Err(raw.error), rest; }
    var budget := BudgetIn(raw.value, readers);
    value := if budget.Err? then Err(budget.error) else Ok((id.value, budget.value));
  }

  /** Two different arguments, both needed. */
  method TakeTwo(given: Fields, a: string, aLimit: nat, b: string, bLimit: nat)
    returns (value: Result<(string, string)>, rest: Fields)
    requires a != b
    ensures value == (var x :- Needed(given, a, aLimit);
                      var y :- Needed(given, b, bLimit);
                      Ok((x, y)))
    ensures value.Ok? ==> rest == given - {a, b}
  {
    var x, y;
    x, rest := TakeNeeded(given, a, aLimit);
    if x.Err? { return Err(x.error), rest; }
    y, rest := TakeNeeded(rest, b, bLimit);
    value := if y.Err? then Err(y.error) else Ok((x.value, y.value));
  }

  method ParseFields(command: string, given: Fields, readers: Readers) returns (r: Result<ControlCommand>)
    ensures r == ParseCommand(command, given, readers)
  {
    var fields := given;
    var selected: Result<Option<nat>> := Ok(None);
    if command == "answer_question" {
      selected := SelectedOption(fields);
      fields := fields - {"selectedOption"};
      if selected.Err? { return Err(selected.error); }
    }
    match command {
      case "message" =>
        var text; text, fields := TakeNeeded(fields, "text", MAX_REQUEST_BYTES);
        if text.Err? { return Err(text.error); }
        r := Ok(Message(text.value));
      case "pause" => r := Ok(Pause);
      case "resume" =>
        var note; note, fields := Take(fields, "note", MAX_NOTE_BYTES);
        if note.Err? { return Err(note.error); }
        r := Ok(Resume(note.value));
      case "note" =>
        var text; text, fields := TakeNeeded(fields, "text", MAX_NOTE_BYTES);
        if text.Err? { return Err(text.error); }
        r := Ok(QueueNote(text.value));
      case "approve" =>
        var decision; decision, fields := TakeDecision(fields, readers);
        if decision.Err? { return Err(decision.error); }
        r := Ok(Approve(decision.value.0, decision.value.1));
      case "reject" =>
        var decision; decision, fields := TakeDecision(fields, readers);
        if decision.Err? { return Err(decision.error); }
        r := Ok(Reject(decision.value.0, decision.value.1));
      case "answer_question" =>
        var both; both, fields := TakeTwo(fields, "questionId", MAX_PROPOSAL_ID_BYTES, "answer", MAX_REQUEST_BYTES);
        if both.Err? { return Err(both.error); }
        r := Ok(AnswerQuestion(both.value.0, both.value.1, selected.value));
      case "verify" => r := Ok(Verify);
      case "continue-repair" => r := Ok(ContinueRepair);
      case "continue-task" =>
        var id; id, fields := TakeNeeded(fields, "taskId", MAX_TASK_ID_BYTES);
        if id.Err? { return Err(id.error); }
        var note; note, fields := Take(fields, "note", MAX_NOTE_BYTES);
        if note.Err? { return Err(note.error); }
        r := Ok(ContinueTask(id.value, note.value));
      case "checks" =>
        var both; both, fields := TakeTwo(fields, "proposalId", MAX_PROPOSAL_ID_BYTES, "decisions", MAX_REQUEST_BYTES);
        if both.Err? { return Err(both.error); }
        r := Ok(Checks(both.value.0, readers.checks(both.value.1)));
      case "stop" => r := Ok(Stop);
      case "shutdown" => r := Ok(Shutdown);
      case "status" => r := Ok(Status);
      case _ => return Err(UNKNOWN);
    }
    assert fields == given - Arguments(command).value;
    if fields.Keys != {} {
      r := Err(UNEXPECTED);
    }
  }
}
