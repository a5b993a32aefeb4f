/** The launch sweep and the decision endpoint of
  * crates/desktop-shell/src/recovery.rs: first as functions on the logs, then
  * as the object that writes them.
  */
module Recovery {
  import opened Common
  import opened SessionLog

  type Logs = map<string, Log>

  /** A missing log reads as an empty one. */
  function LogOf(logs: Logs, session: string): Log {
    if session in logs then logs[session] else []
  }

  datatype Write = Write(session: string, event: Event)

  function Append(logs: Logs, w: Write): Logs {
    logs[w.session := LogOf(logs, w.session) + [w.event]]
  }

  function Applied(logs: Logs, writes: seq<Write>): Logs {
    if writes == [] then logs
    else Append(Applied(logs, writes[..|writes| - 1]), writes[|writes| - 1])
  }

  function To(session: string, events: seq<Event>): (r: seq<Write>)
    ensures |r| == |events| && forall i | 0 <= i < |r| :: r[i] == Write(session, events[i])
  {
    seq(|events|, i requires 0 <= i < |events| => Write(session, events[i]))
  }

  type Address = (string, string)

  /** What recovery learns elsewhere: the sessions whose worker is alive, the
    * waiting tasks whose patch was decided file by file and the ones whose
    * proposal cannot be produced, and what the completion gate finds. */
  datatype Outside = Outside(live: set<string>, decided: set<Address>, unreadable: set<Address>, verdicts: Verdicts)

  /** What classifying one session appends and finds. */
  function Prepared(session: string, logs: Logs, outside: Outside): seq<Write> {
    To(session, Preparation(LogOf(logs, session), session in outside.live, outside.verdicts))
  }

  function ClassifiedIn(session: string, logs: Logs, outside: Outside): seq<Recovered> {
    Classify(session, LogOf(logs, session), session in outside.live, outside.verdicts)
  }

  /** The task was settled by this very classification. */
  predicate JustSettled(logs: Logs, outside: Outside, at: Address) {
    at.1 in Settlements(LogOf(logs, at.0), at.0 in outside.live, outside.verdicts).settled
  }

  // ---- the sweep ----

  /** A card: the classification with what the log adds to it. */
  datatype Card = Card(task: Recovered, prompt: string, offersResume: bool, usage: Option<nat>, includesLostCall: bool)

  /** `describe`, the parts that come from the log. */
  function Describe(task: Recovered, prompt: string, usage: Option<nat>, lost: bool): Card {
    Card(task, prompt, !task.unknown && prompt != "", usage, lost)
  }

  function PlainCard(task: Recovered, log: Log): Card {
    Describe(task, PromptIn(Active(log), task.task), UsageIn(log, task.task), LostIn(log, task.task))
  }

  /** An automatic resume moves the status; its event carries no prompt. */
  function AutoResume(task: Recovered): Write {
    Write(task.session, TaskRecorded(task.task, PreparingContext, ""))
  }

  /** One task of the sweep over plain logs, read afresh: the card, if any. */
  function CardOf(logs: Logs, task: Recovered): seq<Card> {
    var log := LogOf(logs, task.session);
    if SupersededIn(Active(log), task.task) then [] else [PlainCard(task, log)]
  }

  function WriteOf(logs: Logs, task: Recovered): seq<Write> {
    if SupersededIn(Active(LogOf(logs, task.session)), task.task) || !task.auto then [] else [AutoResume(task)]
  }

  /** What the sweep over `tasks` writes, each task seeing the log as the tasks
    * before it left it. */
  function SweepWrites(logs: Logs, tasks: seq<Recovered>): seq<Write> {
    if tasks == [] then []
    else
      var before := SweepWrites(logs, tasks[..|tasks| - 1]);
      before + WriteOf(Applied(logs, before), tasks[|tasks| - 1])
  }

  function SweepCards(logs: Logs, tasks: seq<Recovered>): seq<Card> {
    if tasks == [] then []
    else
      SweepCards(logs, tasks[..|tasks| - 1])
      + CardOf(Applied(logs, SweepWrites(logs, tasks[..|tasks| - 1])), tasks[|tasks| - 1])
  }

  /** `classify_all`: what it appends, and what it finds. */
  function PrepareAll(sessions: seq<string>, logs: Logs, outside: Outside): seq<Write> {
    if sessions == [] then []
    else Prepared(sessions[0], logs, outside) + PrepareAll(sessions[1..], logs, outside)
  }

  function ClassifyAll(sessions: seq<string>, logs: Logs, outside: Outside): seq<Recovered> {
    if sessions == [] then []
    else ClassifiedIn(sessions[0], logs, outside) + ClassifyAll(sessions[1..], logs, outside)
  }

  /** The tasks of a session whose approval is reattached; a patch that was
    * decided already is not. */
  function WaitingAmong(session: string, log: Log, decided: set<Address>, ids: seq<string>): seq<Address> {
    if ids == [] then []
    else
      (if StatusIn(Active(log), ids[0]) == Some(WaitingForApproval) && (session, ids[0]) !in decided
       then [(session, ids[0])] else [])
      + WaitingAmong(session, log, decided, ids[1..])
  }

  function Waiting(sessions: seq<string>, logs: Logs, outside: Outside): seq<Address> {
    if sessions == [] then []
    else
      var log := LogOf(logs, sessions[0]);
      (if sessions[0] in outside.live then [] else WaitingAmong(sessions[0], log, outside.decided, TaskIds(Active(log))))
      + Waiting(sessions[1..], logs, outside)
  }

  datatype Sweep = Sweep(recovered: seq<Card>, approvals: seq<Address>)

  /** What classifying and resuming append. */
  function SweepingWrites(sessions: seq<string>, logs: Logs, outside: Outside): seq<Write> {
    var prepared := PrepareAll(sessions, logs, outside);
    prepared + SweepWrites(Applied(logs, prepared), ClassifyAll(sessions, logs, outside))
  }

  /** A waiting task whose proposal cannot be produced fails, and is shown with
    * the reason. */
  function FailWrites(waiting: seq<Address>, unreadable: set<Address>): seq<Write> {
    if waiting == [] then []
    else
      (if waiting[0] in unreadable then [Write(waiting[0].0, TaskRecorded(waiting[0].1, Failed, ""))] else [])
      + FailWrites(waiting[1..], unreadable)
  }

  function LaunchWrites(sessions: seq<string>, logs: Logs, outside: Outside): seq<Write> {
    var first := SweepingWrites(sessions, logs, outside);
    first + FailWrites(Waiting(sessions, Applied(logs, first), outside), outside.unreadable)
  }

  /** `run_sweep`, every log read afresh for every task. */
  function Launch(sessions: seq<string>, logs: Logs, outside: Outside): Sweep {
    var after := Applied(logs, PrepareAll(sessions, logs, outside));
    Sweep(SweepCards(after, ClassifyAll(sessions, logs, outside)),
          Waiting(sessions, Applied(logs, SweepingWrites(sessions, logs, outside)), outside))
  }

  /** The cards of a sweep that are still questions: `sweep_payload`. */
  function Open(logs: Logs, cards: seq<Card>): seq<Card> {
    if cards == [] then []
    else
      var card := cards[|cards| - 1];
      Open(logs, cards[..|cards| - 1])
      + if Settled(LogOf(logs, card.task.session), card.task.task) then [] else [card]
  }

  // ---- decisions ----

  datatype Refusal = MissingField(name: string) | NotRecovered | AlreadyResumed | OutcomeUnknown | UnknownDecision
  datatype Answer = Refused(refusal: Refusal) | Decided(prompt: string)

  function RequiredForm(form: map<string, string>, name: string): Option<string> {
    if name in form && form[name] != "" then Some(form[name]) else None
  }

  function Find(tasks: seq<Recovered>, id: string): Option<Recovered> {
    if tasks == [] then None
    else if tasks[0].task == id then Some(tasks[0]) else Find(tasks[1..], id)
  }

  datatype Outcome = Outcome(writes: seq<Write>, answer: Answer)

  /** What a decision does once its address names a recovered task. */
  function Settle(task: Recovered, decision: string, prompt: string): Outcome {
    match decision
    case "resume" =>
      if task.unknown then Outcome([], Refused(OutcomeUnknown))
      else Outcome([AutoResume(task), Write(task.session, TaskSuperseded(task.task))], Decided(prompt))
    case "mark_failed" => Outcome([Write(task.session, TaskRecorded(task.task, Failed, ""))], Decided(""))
    case "abandon" => Outcome([Write(task.session, TaskRecorded(task.task, Cancelled, ""))], Decided(""))
    case _ => Outcome([], Refused(UnknownDecision))
  }

  /** `apply_decision`, once the form is read. */
  function DecisionAt(logs: Logs, outside: Outside, session: string, id: string, decision: string): Outcome {
    var log := LogOf(logs, session);
    var accounts := Prepared(session, logs, outside);
    match Find(ClassifiedIn(session, logs, outside), id)
    case None => Outcome(accounts, Refused(NotRecovered))
    case Some(task) =>
      if SupersededIn(Active(log), id) then Outcome(accounts, Refused(AlreadyResumed))
      else
        var outcome := Settle(task, decision, PromptIn(Active(log), id));
        Outcome(accounts + outcome.writes, outcome.answer)
  }

  function Decision(logs: Logs, outside: Outside, form: map<string, string>): Outcome {
    var (s, t, d) := (RequiredForm(form, "session_id"), RequiredForm(form, "task_id"), RequiredForm(form, "decision"));
    if s.None? then Outcome([], Refused(MissingField("session_id")))
    else if t.None? then Outcome([], Refused(MissingField("task_id")))
    else if d.None? then Outcome([], Refused(MissingField("decision")))
    else DecisionAt(logs, outside, s.value, t.value, d.value)
  }

  /** `resolve_reattached_approval_with`: whatever the task's status was. */
  function Resolution(form: map<string, string>): Outcome {
    var (s, t, o) := (RequiredForm(form, "session_id"), RequiredForm(form, "task_id"), RequiredForm(form, "outcome"));
    if s.None? then Outcome([], Refused(MissingField("session_id")))
    else if t.None? then Outcome([], Refused(MissingField("task_id")))
    else if o.None? then Outcome([], Refused(MissingField("outcome")))
    else Outcome([Write(s.value, TaskRecorded(t.value, Cancelled, ""))], Decided(""))
  }

  function AddressOf(form: map<string, string>): Address {
    (if "session_id" in form then form["session_id"] else "", if "task_id" in form then form["task_id"] else "")
  }

  function KeepCards(cards: seq<Card>, at: Address): seq<Card> {
    if cards == [] then []
    else
      var card := cards[|cards| - 1];
      KeepCards(cards[..|cards| - 1], at) + if (card.task.session, card.task.task) == at then [] else [card]
  }

  function KeepAddresses(addresses: seq<Address>, at: Address): seq<Address> {
    if addresses == [] then []
    else
      var a := addresses[|addresses| - 1];
      KeepAddresses(addresses[..|addresses| - 1], at) + if a == at then [] else [a]
  }

  /** `forget`: nothing when no sweep has run. */
  function Forgotten(sweep: Option<Sweep>, at: Address): Option<Sweep> {
    match sweep
    case None => None
    case Some(s) => Some(Sweep(KeepCards(s.recovered, at), KeepAddresses(s.approvals, at)))
  }

  // ---- one replay of a log ----

  datatype SessionFacts = SessionFacts(
    statuses: map<string, Status>, prompts: map<string, string>, usage: map<string, nat>,
    superseded: set<string>, lost: set<string>)

  function Lookup<V>(m: map<string, V>, id: string): Option<V> {
    if id in m then Some(m[id]) else None
  }

  function PromptFact(f: SessionFacts, id: string): string {
    if id in f.prompts then f.prompts[id] else ""
  }

  /** What does not change when a status moves. */
  predicate ReadsFor(f: SessionFacts, log: Log, id: string) {
    && PromptFact(f, id) == PromptIn(Active(log), id)
    && Lookup(f.usage, id) == UsageIn(log, id)
    && (id in f.superseded <==> SupersededIn(Active(log), id))
    && (id in f.lost <==> LostIn(log, id))
  }

  ghost predicate Reads(f: SessionFacts, log: Log) {
    forall id :: ReadsFor(f, log, id)
  }

  ghost predicate ReadsStatuses(f: SessionFacts, log: Log) {
    forall id :: Lookup(f.statuses, id) == StatusIn(Active(log), id)
  }

  /** `read_task_statuses`. */
  method ReadStatuses(events: Log) returns (statuses: map<string, Status>)
    ensures forall id :: Lookup(statuses, id) == StatusIn(events, id)
  {
    statuses := map[];
    for i := 0 to |events|
      invariant forall id :: Lookup(statuses, id) == StatusIn(events[..i], id)
    {
      assert events[..i + 1][..i] == events[..i];
      if events[i].TaskRecorded? {
        statuses := statuses[events[i].id := events[i].status];
      }
    }
    assert events[..|events|] == events;
  }

  /** `read_tasks`, the prompts. */
  method ReadPrompts(events: Log) returns (prompts: map<string, string>)
    ensures forall id :: (if id in prompts then prompts[id] else "") == PromptIn(events, id)
  {
    prompts := map[];
    for i := 0 to |events|
      invariant forall id :: (if id in prompts then prompts[id] else "") == PromptIn(events[..i], id)
    {
      assert events[..i + 1][..i] == events[..i];
      var e := events[i];
      if e.TaskRecorded? && !e.status.Unrecognised? {
        if e.id !in prompts || e.prompt != "" {
          prompts := prompts[e.id := e.prompt];
        }
      }
    }
    assert events[..|events|] == events;
  }

  /** `read_task_usage`, the tokens. */
  method ReadUsage(log: Log) returns (usage: map<string, nat>)
    ensures forall id :: Lookup(usage, id) == UsageIn(log, id)
  {
    usage := map[];
    for i := 0 to |log|
      invariant forall id :: Lookup(usage, id) == UsageIn(log[..i], id)
    {
      assert log[..i + 1][..i] == log[..i];
      var e := log[i];
      if e.UsageRecorded? {
        usage := usage[e.id := if e.id in usage then usage[e.id] + e.tokens else e.tokens];
      }
    }
    assert log[..|log|] == log;
  }

  /** `superseded_task_ids` of the active events, and `lost_to_crash_task_ids`
    * of all of them. */
  method ReadMarks(log: Log) returns (superseded: set<string>, lost: set<string>)
    ensures forall id :: id in superseded <==> SupersededIn(Active(log), id)
    ensures forall id :: id in lost <==> LostIn(log, id)
  {
    superseded, lost := {}, {};
    var events := Active(log);
    for i := 0 to |events|
      invariant forall id :: id in superseded <==> TaskSuperseded(id) in events[..i]
    {
      assert events[..i + 1] == events[..i] + [events[i]];
      if events[i].TaskSuperseded? {
        superseded := superseded + {events[i].id};
      }
    }
    assert events[..|events|] == events;
    for i := 0 to |log|
      invariant forall id :: id in lost <==> LostIn(log[..i], id)
    {
      assert log[..i + 1] == log[..i] + [log[i]];
      if log[i].UsageRecorded? && log[i].lost {
        lost := lost + {log[i].id};
      }
    }
    assert log[..|log|] == log;
  }

  /** `SessionFacts::read`. */
  method ReadFacts(log: Log) returns (f: SessionFacts)
    ensures Reads(f, log) && ReadsStatuses(f, log)
  {
    var statuses := ReadStatuses(Active(log));
    var prompts := ReadPrompts(Active(log));
    var usage := ReadUsage(log);
    var superseded, lost := ReadMarks(log);
    f := SessionFacts(statuses, prompts, usage, superseded, lost);
  }

  /** Facts read before a status moved still answer what the sweep asks. */
  lemma StillReads(f: SessionFacts, log: Log, id: string, status: Status)
    requires Reads(f, log)
    ensures Reads(f, log + [TaskRecorded(id, status, "")])
  {
    var e := TaskRecorded(id, status, "");
    ActiveGrows(log, e);
    assert (log + [e])[..|log|] == log && (Active(log) + [e])[..|Active(log)|] == Active(log);
    forall t ensures ReadsFor(f, log + [e], t) {
      assert ReadsFor(f, log, t);
    }
  }
}
