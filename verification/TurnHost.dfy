/** The worker host's turn slot as plain values.
  *
  * Every function here is one lock-held section of `WorkerHost`
  * (crates/desktop-shell/src/worker.rs): what the slot, the turn in flight's
  * handles and the job channel look like afterwards, and what the caller is
  * answered. `WorkerHosts.dfy` proves the mutable host against these, and
  * `TurnProtocol.dfy` interleaves them with the turn thread.
  */
module TurnHost {
  import opened Common

  type Id = string
  type Note = string

  datatype WorkerState = Idle | Running | Paused | WaitingForApproval | ShuttingDown

  /** Which resume a pending decision takes. */
  datatype DecisionKind = CommandKind | PlanKind | RoundBudgetKind | ChecksKind | QuestionKind

  datatype Pending = Pending(id: Id, kind: DecisionKind)

  datatype Budget = Budget(actionRounds: nat, explorationRounds: nat, inputTokens: nat, outputTokens: nat)

  datatype TurnJob =
    | MessageJob(text: string)
    | DecideJob(proposalId: Id, kind: DecisionKind, approved: bool, budget: Option<Budget>)
    | VerifyJob
    | ContinueRepairJob
    | ChecksJob(proposalId: Id, decisions: seq<(string, bool)>)
    | AnswerJob(questionId: Id, answer: string, selectedOption: Option<nat>)
    | ContinueTaskJob(taskId: Id, note: Option<Note>)

  /** A validated control request. The check decisions arrive as JSON text; here
    * they are what `parse_check_decisions` made of it, `None` when it refused. */
  datatype ControlCommand =
    | Message(text: string)
    | Pause
    | Resume(note: Option<Note>)
    | QueueNote(text: Note)
    | Approve(proposalId: Id, budget: Option<Budget>)
    | Reject(proposalId: Id, budget: Option<Budget>)
    | AnswerQuestion(questionId: Id, answer: string, selectedOption: Option<nat>)
    | Verify
    | ContinueRepair
    | Checks(proposalId: Id, decisions: Option<seq<(string, bool)>>)
    | ContinueTask(taskId: Id, note: Option<Note>)
    | Stop
    | Shutdown
    | Status

  datatype Answer =
    | Accepted
    | Refused(error: string)
    | Snapshot(state: WorkerState, questionId: Option<Id>, proposalId: Option<Id>)

  /** One turn's cancel token and steering queue. A fresh pair is made for each
    * job that is handed over; `serial` in `Slot` numbers the pairs. */
  datatype Handles = Handles(cancelled: bool, paused: bool, notes: seq<Note>)

  datatype Slot = Slot(state: WorkerState, serial: nat, handles: Handles, pending: Option<Pending>)

  /** A job in the channel, with the number of the handles made for it. */
  datatype Ticket = Ticket(job: TurnJob, serial: nat)

  /** The job channel: absent until a turn thread is attached, open while it
    * lives, and gone once its receiver was dropped. */
  datatype Channel = NoTurns | Open(queue: seq<Ticket>) | Gone

  datatype Host = Host(slot: Slot, channel: Channel)

  const NEW_HOST := Host(Slot(Idle, 0, Handles(false, false, []), None), NoTurns)

  /** A decision resumes the turn that paused, so its undelivered notes go with
    * it; the other jobs start a turn of their own. */
  predicate ResumesTurn(job: TurnJob) {
    job.DecideJob? || job.ChecksJob? || job.AnswerJob?
  }

  predicate TurnInFlight(state: WorkerState) {
    state == Running || state == Paused
  }

  function HandOver(h: Host, job: TurnJob): (Host, Answer) {
    if h.channel.NoTurns? then
      (h, Refused("this worker hosts no turns"))
    else
      var carried := if ResumesTurn(job) then h.slot.handles.notes else [];
      var serial := h.slot.serial + 1;
      var slot := h.slot.(serial := serial, handles := Handles(false, false, carried));
      match h.channel
      case Open(queue) =>
        (Host(slot.(state := Running), Open(queue + [Ticket(job, serial)])), Accepted)
      case Gone =>
        (h.(slot := slot), Refused("the worker's turn thread has stopped"))
  }

  function Start(h: Host, job: TurnJob): (Host, Answer) {
    match h.slot.state
    case Idle => HandOver(h, job)
    case Running => (h, Refused("a turn is already running"))
    case Paused => (h, Refused("a turn is already running"))
    case WaitingForApproval => (h, Refused("the turn is waiting for approval; approve or reject it"))
    case ShuttingDown => (h, Refused("the worker is shutting down"))
  }

  /** Hands over the job that answers the pending decision, which is cleared
    * only when the job was accepted. */
  function Settled(h: Host, job: TurnJob): (Host, Answer) {
    var (after, answer) := HandOver(h, job);
    (if answer.Accepted? then after.(slot := after.slot.(pending := None)) else after, answer)
  }

  /** The decision the socket may answer, if any. */
  function Offered(slot: Slot): Option<Pending> {
    if slot.state == WaitingForApproval then slot.pending else None
  }

  function Decide(h: Host, id: Id, approved: bool, budget: Option<Budget>): (Host, Answer) {
    match Offered(h.slot)
    case None => (h, Refused("no approval with that id is pending"))
    case Some(p) =>
      if p.id != id then (h, Refused("no approval with that id is pending"))
      else if p.kind == ChecksKind then (h, Refused("a check card is answered with `checks`"))
      else if p.kind == QuestionKind then (h, Refused("a question is answered with `answer_question`"))
      else Settled(h, DecideJob(id, p.kind, approved, budget))
  }

  function AnswerPending(h: Host, id: Id, answer: string, selected: Option<nat>): (Host, Answer) {
    match Offered(h.slot)
    case None => (h, Refused("no question with that id is pending"))
    case Some(p) =>
      if p.kind == QuestionKind && p.id == id then Settled(h, AnswerJob(id, answer, selected))
      else (h, Refused("that id is not a pending question"))
  }

  function DecideChecks(h: Host, id: Id, decisions: Option<seq<(string, bool)>>): (Host, Answer) {
    match Offered(h.slot)
    case None => (h, Refused("no check card with that id is pending"))
    case Some(p) =>
      if p.kind != ChecksKind || p.id != id then (h, Refused("no check card with that id is pending"))
      else if decisions.None? then (h, Refused("the decisions are not a list of checks"))
      else Settled(h, ChecksJob(id, decisions.value))
  }

  /** Pause, resume, notes and stop act on a turn in flight only. */
  function Steer(h: Host, handles: Handles): (Host, Answer) {
    match h.slot.state
    case Running => (h.(slot := h.slot.(handles := handles)), Accepted)
    case Paused => (h.(slot := h.slot.(handles := handles)), Accepted)
    case WaitingForApproval => (h, Refused("the turn is waiting for approval; approve or reject it"))
    case Idle => (h, Refused("no turn is running"))
    case ShuttingDown => (h, Refused("the worker is shutting down"))
  }

  function WithNote(handles: Handles, note: Option<Note>): Handles {
    if note.Some? then handles.(notes := handles.notes + [note.value]) else handles
  }

  function Cancelled(h: Host): Host {
    h.(slot := h.slot.(handles := h.slot.handles.(cancelled := true)))
  }

  function WithState(h: Host, state: WorkerState): Host {
    h.(slot := h.slot.(state := state))
  }

  function TakeSnapshot(slot: Slot): Answer {
    match Offered(slot)
    case Some(Pending(id, QuestionKind)) => Snapshot(slot.state, Some(id), None)
    case Some(p) => Snapshot(slot.state, None, Some(p.id))
    case None => Snapshot(slot.state, None, None)
  }

  /** One command, start to end. `Shutdown`'s three sections and `Resume`'s two
    * steering updates are run together here; the protocol takes them apart. */
  function Dispatch(h: Host, command: ControlCommand): (Host, Answer) {
    match command
    case Status => (h, TakeSnapshot(h.slot))
    case Shutdown => (Cancelled(WithState(h, ShuttingDown)), Accepted)
    case Message(text) => Start(h, MessageJob(text))
    case Approve(id, budget) => Decide(h, id, true, budget)
    case Reject(id, budget) => Decide(h, id, false, budget)
    case AnswerQuestion(id, answer, selected) => AnswerPending(h, id, answer, selected)
    case Verify => Start(h, VerifyJob)
    case ContinueRepair => Start(h, ContinueRepairJob)
    case ContinueTask(id, note) => Start(h, ContinueTaskJob(id, note))
    case Checks(id, decisions) => DecideChecks(h, id, decisions)
    case Pause => Steer(h, h.slot.handles.(paused := true))
    case Resume(note) => Steer(h, WithNote(h.slot.handles, note).(paused := false))
    case QueueNote(text) => Steer(h, WithNote(h.slot.handles, Some(text)))
    case Stop => Steer(h, h.slot.handles.(cancelled := true))
  }

  function SetPaused(h: Host, paused: bool): Host {
    if TurnInFlight(h.slot.state) then WithState(h, if paused then Paused else Running) else h
  }

  /** The turn thread finished a job: idle, or holding a decision. */
  function Settle(h: Host, pending: Option<Pending>): Host {
    if h.slot.state == ShuttingDown then h
    else h.(slot := h.slot.(state := if pending.Some? then WaitingForApproval else Idle, pending := pending))
  }

  /** What a finished turn reported: the task's status and its proposals. */
  datatype TurnResult = TurnResult(
    waiting: bool,
    question: Option<Id>,
    checks: Option<Id>,
    plan: Option<Id>,
    roundBudget: Option<Id>,
    command: Option<Id>,
    patch: Option<Id>,
    fallback: Option<Id>)

  /** What keeps the worker waiting on its socket. A patch or a fallback offer
    * ends the turn and is answered elsewhere. */
  function PendingDecision(r: TurnResult): Option<Pending> {
    if !r.waiting then None
    else if r.question.Some? then Some(Pending(r.question.value, QuestionKind))
    else if r.checks.Some? then Some(Pending(r.checks.value, ChecksKind))
    else if r.plan.Some? then Some(Pending(r.plan.value, PlanKind))
    else if r.roundBudget.Some? then Some(Pending(r.roundBudget.value, RoundBudgetKind))
    else if r.command.Some? then Some(Pending(r.command.value, CommandKind))
    else None
  }
}
