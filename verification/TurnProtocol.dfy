/** The worker process as a transition system.
  *
  * The control thread, the turn thread, the main thread and the lifeline take
  * steps in any order; one step is one lock-held section, one message on the
  * job channel, or one action of the engine. The process may stop at any point
  * and be started again on the same durable store.
  *
  * The engine behind a turn is an environment bound by `EngineMay` and `Honest`,
  * except where it asks a question or is answered: those are steps of their own,
  * in the order of `resume_after_plan_decision_with_budget`,
  * `resume_after_answer` and the two places that ask
  * (crates/workspace-engine/src/chat.rs).
  */
module TurnProtocol {
  import opened Common
  import opened TurnHost
  import opened DecisionStore

  // ---- state ----

  /** Where a turn is inside `take_turn`. `Taken` holds the pause a question's
    * answer took up and has neither put back nor answered; `Asking` and
    * `Parking` are the two gaps while a question is asked: recorded but not
    * parked, and parked but with no task waiting on it. */
  datatype Phase =
    | Entry
    | Taken(pause: PausedTurn)
    | Rolling
    | Asking(question: Id)
    | Parking(question: Id)
    | PauseSeen
    | Holding
    | ResumeSeen

  datatype Outcome = Done(result: TurnResult) | Failed

  datatype TurnPos =
    | AtRecv
    | Received(ticket: Ticket)
    | Turning(ticket: Ticket, held: nat, phase: Phase)
    | Finished(ticket: Ticket, outcome: Outcome)
    | Dead(lostJob: bool)

  /** `ResumeHeld`: the slot lock is held between `resume`'s two updates. */
  datatype ControlPos = Serving | ResumeHeld | ShutdownSet | ShutdownCancelled | Ended

  datatype MainPos = Waiting | StateSet | CancelSent

  datatype Fate = Delivered | Discarded | LostInRestart
  datatype FatedNote = FatedNote(note: Note, fate: Fate)

  /** Every note ever accepted, and what became of the ones no longer queued. */
  datatype Ledger = Ledger(accepted: seq<Note>, gone: seq<FatedNote>)

  datatype World = World(
    host: Host,
    past: seq<Handles>,      // the replaced handle pairs, by serial
    turn: TurnPos,
    control: ControlPos,
    main: MainPos,
    triggered: bool,
    store: Store,
    used: set<Id>,           // every id ever made for a paused turn
    lost: set<Id>,           // questions whose pause a failed answer or a crash left off disk
    ledger: Ledger)

  // ---- the environment ----

  /** The turn that asked `q` is parked on disk, so an answer can resume it. */
  predicate HeldOnDisk(s: Store, q: Id) {
    q in s.paused && s.paused[q] == QuestionPause
  }

  /** Paused turns that leave the disk only when their own card is answered. */
  predicate OwnCard(p: PausedTurn) {
    p.PlanPause? || p.QuestionPause?
  }

  /** What the engine may do to the store in one write while a turn runs, beside
    * asking a question and taking up an answer. */
  ghost predicate EngineMay(before: Store, used: set<Id>, after: Store) {
    && WellFormed(after)
    && after.questions.Keys == before.questions.Keys
    && (forall q | q in before.questions ::
          && after.questions[q].taskId == before.questions[q].taskId
          && (before.questions[q].answered ==> after.questions[q].answered))
    && (forall i, q | LinkedAt(after.tasks, i, Asked(q)) ::
          exists k :: LinkedAt(before.tasks, k, Asked(q)) && before.tasks[k].id == after.tasks[i].id)
    && (forall id | id in after.paused :: id in before.paused || id !in used)
    && (forall id | id in before.paused && OwnCard(before.paused[id]) ::
          id in after.paused && after.paused[id] == before.paused[id])
    && (forall q | HeldOnDisk(after, q) :: HeldOnDisk(before, q))
  }

  /** A turn that ends waiting on a plan or a question left it open on disk. */
  ghost predicate Honest(r: TurnResult, s: Store) {
    var p := PendingDecision(r);
    p.Some? && p.value.kind in {PlanKind, QuestionKind} ==> StillOpen(s, p.value)
  }

  // ---- steps ----

  datatype Label =
    | Command(command: ControlCommand)
    | ResumeQueue(note: Option<Note>)
    | ResumeRelease
    | ShutdownState
    | ShutdownCancel
    | ShutdownTrigger
    | LifelineEof
    | MainState
    | MainCancel
    | Receive
    | ReadHandles
    | EngineRefuses
    | EngineStarts
    | TakePause(removed: bool)   // the engine goes on when the file cannot be removed
    | PutBack
    | DropsPause                 // the put-back failed, or the log could not be read
    | RecordAnswer
    | ReuseAnswer
    | EngineWrites(store: Store)
    | AskQuestion(question: Id, task: nat)
    | SavePause
    | LinkTask(task: nat)
    | BoundaryPause
    | ReportPaused
    | HoldCancelled
    | HoldReleased
    | ReportResumed
    | Drain
    | EngineEnds(result: TurnResult)
    | EngineFails
    | SettleTurn
    | ThreadDies
    | Restart

  predicate LockFree(w: World) {
    w.control != ResumeHeld
  }

  /** The engine is at work on the turn. */
  predicate AtWork(w: World) {
    w.turn.Turning? && (w.turn.phase.Rolling? || w.turn.phase.Asking? || w.turn.phase.Parking?)
  }

  predicate InPhase(w: World, phase: Phase) {
    w.turn.Turning? && w.turn.phase == phase
  }

  function JobOf(w: World): TurnJob
    requires w.turn.Received? || w.turn.Turning? || w.turn.Finished?
  {
    w.turn.ticket.job
  }

  predicate PlanDecision(job: TurnJob) {
    job.DecideJob? && job.kind == PlanKind
  }

  /** The decision a job answers, for the two kinds the engine takes off disk. */
  function AnsweredId(job: TurnJob): Id
    requires PlanDecision(job) || job.AnswerJob?
  {
    if job.AnswerJob? then job.questionId else job.proposalId
  }

  /** The handles a turn reads through the number it cloned. */
  function HandlesOf(w: World, serial: nat): Handles {
    if serial < |w.past| then w.past[serial] else w.host.slot.handles
  }

  function WithHandles(w: World, serial: nat, handles: Handles): World {
    if serial < |w.past| then w.(past := w.past[serial := handles])
    else w.(host := w.host.(slot := w.host.slot.(handles := handles)))
  }

  function AtPhase(w: World, phase: Phase): World
    requires w.turn.Turning?
  {
    w.(turn := w.turn.(phase := phase))
  }

  function WithFate(notes: seq<Note>, fate: Fate): seq<FatedNote> {
    seq(|notes|, i requires 0 <= i < |notes| => FatedNote(notes[i], fate))
  }

  function Consume(ledger: Ledger, notes: seq<Note>, fate: Fate): Ledger {
    ledger.(gone := ledger.gone + WithFate(notes, fate))
  }

  function Accept(ledger: Ledger, note: Option<Note>): Ledger {
    if note.Some? then ledger.(accepted := ledger.accepted + [note.value]) else ledger
  }

  predicate AnswersPending(command: ControlCommand) {
    command.Approve? || command.Reject? || command.AnswerQuestion? || command.Checks?
  }

  /** A command other than `resume` and `shutdown`, which take several sections. */
  function AfterCommand(w: World, command: ControlCommand): World {
    var (host, answer) := Dispatch(w.host, command);
    var replaced := w.host.slot.handles;
    if host.slot.serial != w.host.slot.serial then
      if AnswersPending(command) then
        w.(host := host, past := w.past + [replaced.(notes := [])])
      else
        w.(host := host, past := w.past + [replaced], ledger := Consume(w.ledger, replaced.notes, Discarded))
    else
      w.(host := host,
         ledger := Accept(w.ledger, if command.QueueNote? && answer.Accepted? then Some(command.text) else None))
  }

  /** What `run` settles on: the turn's own decision, or the durable one again
    * when the engine refused an answer to it. */
  function SettleTarget(job: TurnJob, outcome: Outcome, s: Store): Option<Pending> {
    match outcome
    case Done(result) => PendingDecision(result)
    case Failed =>
      if PlanDecision(job) && RefusedPlanRestores(s, job.proposalId) then Some(Pending(job.proposalId, PlanKind))
      else if job.AnswerJob? && RefusedQuestionRestores(s, job.questionId) then Some(Pending(job.questionId, QuestionKind))
      else None
  }

  /** The questions whose pause is gone if the turn stops right here. */
  function InWindow(w: World): set<Id> {
    if InPhase(w, Taken(QuestionPause)) && JobOf(w).AnswerJob? && JobOf(w).questionId !in w.store.paused
    then {JobOf(w).questionId} else {}
  }

  /** A new process on the same store: fresh handles, the durable decision
    * reattached, the turn thread attached, nothing queued. */
  function Boot(w: World): World {
    var slot := Slot(Idle, w.host.slot.serial + 1, Handles(false, false, []), None);
    World(
      Settle(Host(slot, Open([])), RestoredDecision(w.store)),
      w.past + [w.host.slot.handles],
      AtRecv, Serving, Waiting, false,
      w.store, w.used, w.lost + InWindow(w),
      Consume(w.ledger, w.host.slot.handles.notes, LostInRestart))
  }

  ghost predicate Enabled(w: World, l: Label) {
    match l
    case Command(command) => w.control == Serving && !command.Resume? && !command.Shutdown?
    case ResumeQueue(_) => w.control == Serving
    case ResumeRelease => w.control == ResumeHeld
    case ShutdownState => w.control == Serving
    case ShutdownCancel => w.control == ShutdownSet
    case ShutdownTrigger => w.control == ShutdownCancelled
    case LifelineEof => true
    case MainState => w.main == Waiting && w.triggered && LockFree(w)
    case MainCancel => w.main == StateSet && LockFree(w)
    case Receive => w.turn == AtRecv && w.host.channel.Open? && w.host.channel.queue != []
    case ReadHandles => w.turn.Received? && LockFree(w)
    case EngineRefuses => InPhase(w, Entry)
    case EngineStarts => InPhase(w, Entry) && !PlanDecision(JobOf(w)) && !JobOf(w).AnswerJob?
    case TakePause(_) =>
      InPhase(w, Entry) && (PlanDecision(JobOf(w)) || JobOf(w).AnswerJob?)
      && AnsweredId(JobOf(w)) in w.store.paused
      && (PlanDecision(JobOf(w)) ==> w.store.paused[AnsweredId(JobOf(w))].PlanPause?)
    case PutBack =>
      w.turn.Turning? && w.turn.phase.Taken? && JobOf(w).AnswerJob?
      && !(w.turn.phase.pause == QuestionPause && AlreadyAnswered(w.store, JobOf(w).questionId))
    case DropsPause => w.turn.Turning? && w.turn.phase.Taken? && JobOf(w).AnswerJob?
    case RecordAnswer =>
      InPhase(w, Taken(QuestionPause)) && JobOf(w).AnswerJob? && JobOf(w).questionId in w.store.questions
      && !AlreadyAnswered(w.store, JobOf(w).questionId)
    case ReuseAnswer =>
      InPhase(w, Taken(QuestionPause)) && JobOf(w).AnswerJob? && AlreadyAnswered(w.store, JobOf(w).questionId)
    case EngineWrites(store) => AtWork(w) && EngineMay(w.store, w.used, store)
    case AskQuestion(q, task) =>
      InPhase(w, Rolling) && task < |w.store.tasks| && q !in w.used && q !in w.store.questions
    case SavePause => w.turn.Turning? && w.turn.phase.Asking?
    case LinkTask(task) =>
      w.turn.Turning? && w.turn.phase.Parking? && task < |w.store.tasks| && w.turn.phase.question in w.store.questions
      && w.store.tasks[task].id == w.store.questions[w.turn.phase.question].taskId
    case BoundaryPause =>
      InPhase(w, Rolling) && HandlesOf(w, w.turn.held).paused && !HandlesOf(w, w.turn.held).cancelled
    case ReportPaused => InPhase(w, PauseSeen) && LockFree(w)
    case HoldCancelled => InPhase(w, Holding) && HandlesOf(w, w.turn.held).cancelled
    case HoldReleased =>
      InPhase(w, Holding) && !HandlesOf(w, w.turn.held).cancelled && !HandlesOf(w, w.turn.held).paused
    case ReportResumed => InPhase(w, ResumeSeen) && LockFree(w)
    case Drain => InPhase(w, Rolling)
    case EngineEnds(result) => InPhase(w, Rolling) && Honest(result, w.store)
    case EngineFails => AtWork(w)
    case SettleTurn => w.turn.Finished? && LockFree(w)
    case ThreadDies => !w.turn.Dead? && w.host.channel.Open?
    case Restart => true
  }

  /** The task waits on the question from here on. */
  function Linked(s: Store, asked: Id, task: nat): Store
    requires task < |s.tasks|
  {
    s.(tasks := s.tasks[task := Task(s.tasks[task].id, true, Some(Asked(asked)))])
  }

  predicate AlreadyAnswered(s: Store, q: Id) {
    q in s.questions && s.questions[q].answered
  }

  ghost function Apply(w: World, l: Label): World
    requires Enabled(w, l)
  {
    match l
    case Command(command) => AfterCommand(w, command)
    case ResumeQueue(note) =>
      var (host, answer) := Steer(w.host, WithNote(w.host.slot.handles, note));
      if answer.Accepted? then w.(host := host, control := ResumeHeld, ledger := Accept(w.ledger, note)) else w
    case ResumeRelease =>
      w.(host := w.host.(slot := w.host.slot.(handles := w.host.slot.handles.(paused := false))), control := Serving)
    case ShutdownState => w.(host := WithState(w.host, ShuttingDown), control := ShutdownSet)
    case ShutdownCancel => w.(host := Cancelled(w.host), control := ShutdownCancelled)
    case ShutdownTrigger => w.(triggered := true, control := Ended)
    case LifelineEof => w.(triggered := true)
    case MainState => w.(host := WithState(w.host, ShuttingDown), main := StateSet)
    case MainCancel => w.(host := Cancelled(w.host), main := CancelSent)
    case Receive =>
      var queue := w.host.channel.queue;
      w.(host := w.host.(channel := Open(queue[1..])), turn := Received(queue[0]))
    case ReadHandles => w.(turn := Turning(w.turn.ticket, w.host.slot.serial, Entry))
    case EngineRefuses => w.(turn := Finished(w.turn.ticket, Failed))
    case EngineStarts => AtPhase(w, Rolling)
    case TakePause(removed) =>
      var id := AnsweredId(JobOf(w));
      AtPhase(w.(store := w.store.(paused := w.store.paused - (if removed then {id} else {}))),
              if PlanDecision(JobOf(w)) then Rolling else Taken(w.store.paused[id]))
    case PutBack =>
      w.(store := w.store.(paused := w.store.paused[JobOf(w).questionId := w.turn.phase.pause]),
         turn := Finished(w.turn.ticket, Failed))
    case DropsPause =>
      var q := JobOf(w).questionId;
      w.(store := w.store.(paused := w.store.paused - {q}), turn := Finished(w.turn.ticket, Failed), lost := w.lost + {q})
    case RecordAnswer =>
      var q := JobOf(w).questionId;
      AtPhase(w.(store := w.store.(questions := w.store.questions[q := w.store.questions[q].(answered := true)])), Rolling)
    case ReuseAnswer => AtPhase(w, Rolling)
    case EngineWrites(store) => w.(store := store, used := w.used + store.paused.Keys)
    case AskQuestion(q, task) =>
      var questions := w.store.questions[q := Question(w.store.tasks[task].id, false)];
      AtPhase(w.(store := w.store.(questions := questions), used := w.used + {q}), Asking(q))
    case SavePause =>
      var q := w.turn.phase.question;
      AtPhase(w.(store := w.store.(paused := w.store.paused[q := QuestionPause])), Parking(q))
    case LinkTask(task) => AtPhase(w.(store := Linked(w.store, w.turn.phase.question, task)), Rolling)
    case BoundaryPause => AtPhase(w, PauseSeen)
    case ReportPaused => AtPhase(w.(host := SetPaused(w.host, true)), Holding)
    case HoldCancelled => AtPhase(w, Rolling)
    case HoldReleased => AtPhase(w, ResumeSeen)
    case ReportResumed => AtPhase(w.(host := SetPaused(w.host, false)), Rolling)
    case Drain =>
      var handles := HandlesOf(w, w.turn.held);
      WithHandles(w, w.turn.held, handles.(notes := [])).(ledger := Consume(w.ledger, handles.notes, Delivered))
    case EngineEnds(result) => w.(turn := Finished(w.turn.ticket, Done(result)))
    case EngineFails => w.(turn := Finished(w.turn.ticket, Failed))
    case SettleTurn =>
      w.(host := Settle(w.host, SettleTarget(JobOf(w), w.turn.outcome, w.store)), turn := AtRecv)
    case ThreadDies =>
      w.(host := w.host.(channel := Gone),
         turn := Dead(w.turn != AtRecv || w.host.channel.queue != []),
         lost := w.lost + InWindow(w))
    case Restart => Boot(w)
  }

  // ---- the invariant ----

  /** A job was handed over and its turn has not settled. */
  predicate Outstanding(w: World) {
    match w.turn
    case AtRecv => w.host.channel.Open? && w.host.channel.queue != []
    case Dead(lostJob) => lostJob
    case _ => true
  }

  predicate Alive(w: World) {
    w.host.slot.state != ShuttingDown
  }

  /** Jobs `take_turn` has a real arm for. */
  predicate Answerable(job: TurnJob) {
    job.DecideJob? ==> job.kind != ChecksKind && job.kind != QuestionKind
  }

  /** The ticket was made together with the handles the slot holds now. */
  predicate Current(w: World, t: Ticket) {
    t.serial == w.host.slot.serial && Answerable(t.job)
  }

  predicate ChannelInv(w: World) {
    && |w.past| == w.host.slot.serial
    && (w.host.channel.Open? <==> !w.turn.Dead?)
    && (w.host.channel.Gone? <==> w.turn.Dead?)
    && (w.host.channel.Open? && w.host.channel.queue != [] ==>
          w.turn == AtRecv && |w.host.channel.queue| == 1 && Current(w, w.host.channel.queue[0]))
    && (w.turn.Received? || w.turn.Turning? || w.turn.Finished? ==> Current(w, w.turn.ticket))
    && (w.turn.Turning? ==> w.turn.held == w.turn.ticket.serial)
  }

  predicate StateInv(w: World) {
    && (Alive(w) ==> (TurnInFlight(w.host.slot.state) <==> Outstanding(w)))
    && (Alive(w) ==> (w.host.slot.pending.Some? <==> w.host.slot.state == WaitingForApproval))
    && (w.control == ResumeHeld ==> TurnInFlight(w.host.slot.state))
    && (w.control in {ShutdownSet, ShutdownCancelled, Ended} || w.main in {StateSet, CancelSent} ==> !Alive(w))
    && (w.control in {ShutdownCancelled, Ended} || w.main == CancelSent ==> w.host.slot.handles.cancelled)
  }

  /** The job handed over and not yet looked at by the engine, if any. */
  function Untouched(w: World): Option<TurnJob> {
    if w.host.channel.Open? && w.host.channel.queue != [] then Some(w.host.channel.queue[0].job)
    else if w.turn.Received? || (w.turn.Turning? && w.turn.phase == Entry) then Some(w.turn.ticket.job)
    else None
  }

  /** The decision a job answers is still open on disk. */
  ghost predicate AnswersOpen(s: Store, job: TurnJob) {
    && (PlanDecision(job) ==> PlanOpen(s, job.proposalId))
    && (job.AnswerJob? ==> QuestionOpen(s, job.questionId))
  }

  ghost predicate DurableInv(w: World) {
    && WellFormed(w.store)
    && w.store.paused.Keys <= w.used
    && (var p := Offered(w.host.slot);
        p.Some? && p.value.kind in {PlanKind, QuestionKind} ==> StillOpen(w.store, p.value))
    && (w.turn.Finished? && w.turn.outcome.Done? ==> Honest(w.turn.outcome.result, w.store))
    && (forall q | QuestionOpen(w.store, q) :: HeldOnDisk(w.store, q) || q in w.lost || q in InWindow(w))
    && (w.turn.Turning? && w.turn.phase.Taken? ==>
          w.turn.ticket.job.AnswerJob? && w.turn.ticket.job.questionId in w.used
          && (w.turn.ticket.job.questionId in w.store.paused ==>
                w.store.paused[w.turn.ticket.job.questionId] == w.turn.phase.pause)
          && QuestionOpen(w.store, w.turn.ticket.job.questionId))
    && (Untouched(w).Some? ==> AnswersOpen(w.store, Untouched(w).value))
    && AskingInv(w)
  }

  /** A question that is being asked: recorded, with its turn off disk before it
    * is parked and on disk afterwards, and no task waiting on it yet. */
  ghost predicate AskingInv(w: World) {
    w.turn.Turning? && (w.turn.phase.Asking? || w.turn.phase.Parking?) ==>
      var q := w.turn.phase.question;
      && q in w.used && q in w.store.questions
      && (forall i :: !LinkedAt(w.store.tasks, i, Asked(q)))
      && (if w.turn.phase.Asking? then q !in w.store.paused else HeldOnDisk(w.store, q))
  }

  function NotesOf(gone: seq<FatedNote>): seq<Note> {
    seq(|gone|, i requires 0 <= i < |gone| => gone[i].note)
  }

  /** Notes leave the queue from the front and only with a fate: nothing is
    * lost, repeated or reordered. */
  predicate LedgerInv(w: World) {
    w.ledger.accepted == NotesOf(w.ledger.gone) + w.host.slot.handles.notes
  }

  ghost predicate Inv(w: World) {
    ChannelInv(w) && StateInv(w) && DurableInv(w) && LedgerInv(w)
  }

  /** A freshly started worker on a store the engine left behind. */
  ghost predicate Init(w: World) {
    && w.host.slot.serial == |w.past|
    && w.host.slot.handles == Handles(false, false, [])
    && w.host.channel == Open([])
    && w.host == Settle(Host(Slot(Idle, |w.past|, Handles(false, false, []), None), Open([])), RestoredDecision(w.store))
    && w.turn == AtRecv && w.control == Serving && w.main == Waiting && !w.triggered
    && WellFormed(w.store)
    && w.store.paused.Keys <= w.used
    && (forall q | QuestionOpen(w.store, q) :: HeldOnDisk(w.store, q) || q in w.lost)
    && w.lost <= w.used && w.lost !! w.store.paused.Keys
    && w.ledger == Ledger([], [])
  }

  // ---- every step keeps it ----

  lemma InitHolds(w: World)
    requires Init(w)
    ensures Inv(w)
  {
    RestoredIsOpen(w.store);
  }

  lemma RestoredIsOpen(s: Store)
    requires WellFormed(s)
    ensures RestoredDecision(s).Some? ==>
              StillOpen(s, RestoredDecision(s).value) && RestoredDecision(s).value.kind in {PlanKind, QuestionKind}
  {
    if RestoredDecision(s).Some? {
      RestartOffersTheNewestOpenDecision(s, RestoredDecision(s).value);
    }
  }

  /** The steps of the turn thread and of the engine behind it. */
  predicate TurnStep(l: Label) {
    !ControlStep(l) && !l.Command? && !l.Restart?
  }

  /** The steps of the control, main and lifeline threads, bar `Command`. */
  predicate ControlStep(l: Label) {
    l.ResumeQueue? || l.ResumeRelease? || l.ShutdownState? || l.ShutdownCancel? || l.ShutdownTrigger?
    || l.LifelineEof? || l.MainState? || l.MainCancel?
  }

  /** The steps the engine takes inside a turn. */
  predicate EngineStep(l: Label) {
    l.EngineRefuses? || l.EngineStarts? || Answers(l) || l.ReuseAnswer?
    || l.EngineWrites? || Asks(l) || l.BoundaryPause? || l.HoldCancelled? || l.HoldReleased?
    || l.EngineEnds? || l.EngineFails?
  }

  /** The steps of taking up an answer that write. */
  predicate Answers(l: Label) {
    l.TakePause? || l.PutBack? || l.DropsPause? || l.RecordAnswer?
  }

  /** The three steps of asking a question. */
  predicate Asks(l: Label) {
    l.AskQuestion? || l.SavePause? || l.LinkTask?
  }

  /** The steps that leave the store alone. */
  predicate ReadsStore(l: Label) {
    !Answers(l) && !l.EngineWrites? && !Asks(l)
  }

  /** A job that fits went to the channel with fresh handles, or was refused because the
    * receiver is gone; either way an answer's notes moved to the new queue. */
  predicate HandedOver(before: Host, after: Host, answer: Answer, resumes: bool) {
    && after.slot.serial == before.slot.serial + 1
    && after.slot.handles == Handles(false, false, if resumes then before.slot.handles.notes else [])
    && (match before.channel
        case NoTurns => false
        case Gone => answer.Refused? && after == before.(slot := after.slot)
                     && after.slot.state == before.slot.state && after.slot.pending == before.slot.pending
        case Open(queue) =>
          && answer.Accepted?
          && after.slot.state == Running
          && after.slot.pending == (if resumes then None else before.slot.pending)
          && after.channel.Open? && |after.channel.queue| == |queue| + 1
          && after.channel.queue[..|queue|] == queue
          && after.channel.queue[|queue|].serial == after.slot.serial
          && Fits(after.channel.queue[|queue|].job, if resumes then before.slot.pending else None))
  }

  /** The job answers this decision in the form its kind asks for. */
  predicate Fits(job: TurnJob, p: Option<Pending>) {
    match p
    case None => !ResumesTurn(job)
    case Some(p) =>
      match p.kind
      case QuestionKind => job.AnswerJob? && job.questionId == p.id
      case ChecksKind => job.ChecksJob? && job.proposalId == p.id
      case _ => job.DecideJob? && job.proposalId == p.id && job.kind == p.kind
  }

  lemma HandOverEffect(h: Host, job: TurnJob)
    requires !h.channel.NoTurns?
    requires Fits(job, if ResumesTurn(job) then h.slot.pending else None)
    ensures ResumesTurn(job) ==> var (after, answer) := Settled(h, job); HandedOver(h, after, answer, true)
    ensures !ResumesTurn(job) ==> var (after, answer) := HandOver(h, job); HandedOver(h, after, answer, false)
  {
  }

  /** What a command does to the host: it either hands a job over, from a host
    * with no turn in flight, or leaves state, decision and channel alone. */
  lemma CommandEffect(h: Host, c: ControlCommand)
    requires !c.Shutdown?
    ensures var (after, answer) := Dispatch(h, c);
            if after.slot.serial == h.slot.serial then
              && after == h.(slot := h.slot.(handles := after.slot.handles))
              && (after != h ==> TurnInFlight(h.slot.state))
              && (after.slot.handles.cancelled ==> h.slot.handles.cancelled || c.Stop?)
              && (after.slot.handles.paused ==> h.slot.handles.paused || c.Pause?)
            else
              HandedOver(h, after, answer, AnswersPending(c))
              && h.slot.state == if AnswersPending(c) then WaitingForApproval else Idle
  {
    if StartJob(c).Some? { StartEffect(h, c); }
    else if AnswersPending(c) { AnswerEffect(h, c); }
  }

  /** The job of a command that starts a turn of its own. */
  function StartJob(c: ControlCommand): Option<TurnJob> {
    match c
    case Message(text) => Some(MessageJob(text))
    case Verify => Some(VerifyJob)
    case ContinueRepair => Some(ContinueRepairJob)
    case ContinueTask(id, note) => Some(ContinueTaskJob(id, note))
    case _ => None
  }

  lemma StartEffect(h: Host, c: ControlCommand)
    requires StartJob(c).Some?
    ensures var (after, answer) := Dispatch(h, c);
            after == h || (HandedOver(h, after, answer, false) && h.slot.state == Idle)
  {
    if !h.channel.NoTurns? {
      HandOverEffect(h, StartJob(c).value);
    }
  }

  lemma AnswerEffect(h: Host, c: ControlCommand)
    requires AnswersPending(c)
    ensures var (after, answer) := Dispatch(h, c);
            after == h || (HandedOver(h, after, answer, true) && h.slot.state == WaitingForApproval)
  {
    var p := Offered(h.slot);
    if p.Some? && !h.channel.NoTurns? {
      var jobs := [DecideJob(p.value.id, p.value.kind, c.Approve?, if c.Approve? || c.Reject? then c.budget else None),
                   if c.AnswerQuestion? then AnswerJob(c.questionId, c.answer, c.selectedOption) else VerifyJob,
                   if c.Checks? && c.decisions.Some? then ChecksJob(c.proposalId, c.decisions.value) else VerifyJob];
      forall k | 0 <= k < 3 && ResumesTurn(jobs[k]) && Fits(jobs[k], p)
        ensures var (after, answer) := Settled(h, jobs[k]); HandedOver(h, after, answer, true)
      {
        HandOverEffect(h, jobs[k]);
      }
      assert Fits(jobs[0], p) ==> ResumesTurn(jobs[0]);
    }
  }

  lemma ControlKeepsChannel(w: World, l: Label)
    requires Inv(w) && Enabled(w, l) && ControlStep(l)
    ensures ChannelInv(Apply(w, l)) && StateInv(Apply(w, l))
  {
  }

  lemma CommandKeepsChannel(w: World, l: Label)
    requires Inv(w) && Enabled(w, l) && l.Command?
    ensures ChannelInv(Apply(w, l)) && StateInv(Apply(w, l))
  {
    CommandEffect(w.host, l.command);
  }

  /** The step touches the store and the engine's own place in the turn. */
  predicate StaysInside(w: World, after: World) {
    && w.turn.Turning?
    && after == w.(turn := after.turn, store := after.store, used := after.used, lost := after.lost)
    && (if after.turn.Turning? then after.turn == w.turn.(phase := after.turn.phase)
        else after.turn.Finished? && after.turn.ticket == w.turn.ticket)
  }

  lemma EngineReadsInside(w: World, l: Label)
    requires Enabled(w, l) && EngineStep(l) && ReadsStore(l)
    ensures StaysInside(w, Apply(w, l))
  {
  }

  lemma AskStaysInside(w: World, l: Label)
    requires Enabled(w, l) && Asks(l)
    ensures StaysInside(w, Apply(w, l))
  {
  }

  lemma WriteStaysInside(w: World, l: Label)
    requires Enabled(w, l) && !ReadsStore(l) && !Asks(l)
    ensures StaysInside(w, Apply(w, l))
  {
  }

  lemma EngineStaysInside(w: World, l: Label)
    requires Enabled(w, l) && EngineStep(l)
    ensures StaysInside(w, Apply(w, l))
  {
    if ReadsStore(l) { EngineReadsInside(w, l); } else if Asks(l) { AskStaysInside(w, l); } else { WriteStaysInside(w, l); }
  }

  lemma ThreadKeepsChannel(w: World, l: Label)
    requires Inv(w) && Enabled(w, l) && TurnStep(l) && !EngineStep(l)
    ensures ChannelInv(Apply(w, l)) && StateInv(Apply(w, l))
  {
  }

  lemma TurnKeepsChannel(w: World, l: Label)
    requires Inv(w) && Enabled(w, l) && TurnStep(l)
    ensures ChannelInv(Apply(w, l)) && StateInv(Apply(w, l))
  {
    if EngineStep(l) { EngineStaysInside(w, l); } else { ThreadKeepsChannel(w, l); }
  }

  // ---- the durable half ----

  /** Writes to the paused turns leave every question as it was. */
  lemma QuestionOpenReads(s: Store, t: Store, q: Id)
    requires s.tasks == t.tasks && (q in s.questions <==> q in t.questions)
    requires q in s.questions ==> s.questions[q] == t.questions[q]
    ensures QuestionOpen(s, q) <==> QuestionOpen(t, q)
  {
    if QuestionOpen(s, q) {
      var i :| LinkedAt(s.tasks, i, Asked(q)) && s.tasks[i].id == s.questions[q].taskId;
      assert LinkedAt(t.tasks, i, Asked(q));
    }
    if QuestionOpen(t, q) {
      var i :| LinkedAt(t.tasks, i, Asked(q)) && t.tasks[i].id == t.questions[q].taskId;
      assert LinkedAt(s.tasks, i, Asked(q));
    }
  }

  /** Only the host has changed; it offers nothing new, and holds no new job or
    * one whose decision is open. */
  ghost predicate HostMoved(w: World, after: World) {
    && after.store == w.store && after.turn == w.turn && after.used == w.used && after.lost == w.lost
    && Offered(after.host.slot) in {None, Offered(w.host.slot)}
    && (Untouched(after).Some? && Untouched(after) != Untouched(w) ==> AnswersOpen(w.store, Untouched(after).value))
  }

  lemma HostMovesKeepDurable(w: World, after: World)
    requires DurableInv(w) && HostMoved(w, after)
    ensures DurableInv(after)
  {
  }

  lemma CommandMovesHost(w: World, l: Label)
    requires Inv(w) && Enabled(w, l) && l.Command?
    ensures HostMoved(w, Apply(w, l))
  {
    CommandEffect(w.host, l.command);
  }

  lemma CommandKeepsDurable(w: World, l: Label)
    requires Inv(w) && Enabled(w, l) && l.Command?
    ensures DurableInv(Apply(w, l))
  {
    CommandMovesHost(w, l);
    HostMovesKeepDurable(w, Apply(w, l));
  }

  lemma RestartKeepsDurable(w: World)
    requires Inv(w)
    ensures DurableInv(Boot(w))
  {
    RestoredIsOpen(w.store);
  }

  lemma ControlMovesHost(w: World, l: Label)
    requires Enabled(w, l) && ControlStep(l)
    ensures HostMoved(w, Apply(w, l))
  {
  }

  lemma ControlKeepsDurable(w: World, l: Label)
    requires Inv(w) && Enabled(w, l) && ControlStep(l)
    ensures DurableInv(Apply(w, l))
  {
    ControlMovesHost(w, l);
    HostMovesKeepDurable(w, Apply(w, l));
  }

  lemma ThreadKeepsDurable(w: World, l: Label)
    requires Inv(w) && Enabled(w, l) && TurnStep(l) && !EngineStep(l) && !l.SettleTurn?
    ensures DurableInv(Apply(w, l))
  {
  }

  /** Places in a turn that promise nothing about the store beyond an honest
    * result. */
  ghost predicate Unbound(turn: TurnPos, s: Store) {
    if turn.Turning? then turn.phase in {Rolling, PauseSeen, Holding, ResumeSeen}
    else turn.Finished? && (turn.outcome.Done? ==> Honest(turn.outcome.result, s))
  }

  lemma UnboundKeepsDurable(w: World, turn: TurnPos)
    requires Inv(w) && w.turn.Turning? && InWindow(w) == {} && Unbound(turn, w.store)
    ensures DurableInv(w.(turn := turn))
  {
  }

  lemma EngineReadsToUnbound(w: World, l: Label)
    requires Enabled(w, l) && EngineStep(l) && ReadsStore(l)
    ensures Apply(w, l) == w.(turn := Apply(w, l).turn) && Unbound(Apply(w, l).turn, w.store)
    ensures w.turn.Turning? && (w.turn.phase.Taken? ==> l.ReuseAnswer?)
  {
  }

  lemma EngineKeepsDurable(w: World, l: Label)
    requires Inv(w) && Enabled(w, l) && EngineStep(l) && ReadsStore(l)
    ensures DurableInv(Apply(w, l))
  {
    EngineReadsToUnbound(w, l);
    UnboundKeepsDurable(w, Apply(w, l).turn);
  }

  lemma SettleKeepsDurable(w: World, l: Label)
    requires Inv(w) && Enabled(w, l) && l.SettleTurn?
    ensures DurableInv(Apply(w, l))
  {
    if JobOf(w).DecideJob? { RefusedPlanRestoresIffOpen(w.store, JobOf(w).proposalId); }
    if JobOf(w).AnswerJob? { RefusedQuestionRestoresIffOpen(w.store, JobOf(w).questionId); }
  }

  /** No other write of the engine opens a question or takes its turn off
    * disk. */
  lemma EngineOpensNothing(before: Store, used: set<Id>, after: Store, q: Id)
    requires EngineMay(before, used, after) && QuestionOpen(after, q)
    ensures QuestionOpen(before, q) && (HeldOnDisk(before, q) ==> HeldOnDisk(after, q))
  {
    var i :| LinkedAt(after.tasks, i, Asked(q)) && after.tasks[i].id == after.questions[q].taskId;
    var k :| LinkedAt(before.tasks, k, Asked(q)) && before.tasks[k].id == after.tasks[i].id;
  }

  lemma EngineWritesKeepDurable(w: World, l: Label)
    requires Inv(w) && Enabled(w, l) && l.EngineWrites?
    ensures DurableInv(Apply(w, l))
  {
    forall q | QuestionOpen(l.store, q) ensures HeldOnDisk(l.store, q) || q in w.lost {
      EngineOpensNothing(w.store, w.used, l.store, q);
    }
  }

  lemma AskKeepsDurable(w: World, l: Label)
    requires Inv(w) && Enabled(w, l) && l.AskQuestion?
    ensures DurableInv(Apply(w, l))
  {
    var after := Apply(w, l);
    forall q | QuestionOpen(after.store, q) ensures HeldOnDisk(after.store, q) || q in after.lost {
      if q != l.question {
        QuestionOpenReads(w.store, after.store, q);
      }
    }
  }

  lemma SaveKeepsDurable(w: World, l: Label)
    requires Inv(w) && Enabled(w, l) && l.SavePause?
    ensures DurableInv(Apply(w, l))
  {
    var after := Apply(w, l);
    forall q | QuestionOpen(after.store, q) ensures HeldOnDisk(after.store, q) || q in after.lost {
      QuestionOpenReads(w.store, after.store, q);
    }
  }

  lemma LinkingIsWellFormed(s: Store, asked: Id, task: nat)
    requires WellFormed(s) && task < |s.tasks| && asked in s.questions
    requires forall i :: !LinkedAt(s.tasks, i, Asked(asked))
    ensures WellFormed(Linked(s, asked, task))
  {
    var t := Linked(s, asked, task);
    forall i, q | LinkedAt(t.tasks, i, Asked(q)) ensures q in t.questions {
      assert i != task ==> LinkedAt(s.tasks, i, Asked(q));
    }
    forall i, j | 0 <= i < j < |t.tasks| && t.tasks[i].waiting && t.tasks[j].waiting && t.tasks[i].link.Some?
      ensures t.tasks[i].link != t.tasks[j].link
    {
      assert !LinkedAt(s.tasks, i, Asked(asked)) && !LinkedAt(s.tasks, j, Asked(asked));
    }
  }

  /** Linking a task opens no question but the one asked. */
  lemma LinkingOpensOne(s: Store, asked: Id, task: nat, q: Id)
    requires task < |s.tasks| && q != asked && QuestionOpen(Linked(s, asked, task), q)
    ensures QuestionOpen(s, q)
  {
    var t := Linked(s, asked, task);
    var i :| LinkedAt(t.tasks, i, Asked(q)) && t.tasks[i].id == t.questions[q].taskId;
    assert LinkedAt(s.tasks, i, Asked(q));
  }

  /** The question opens with its turn already on disk. */
  lemma LinkKeepsDurable(w: World, l: Label)
    requires Inv(w) && Enabled(w, l) && l.LinkTask?
    ensures DurableInv(Apply(w, l))
  {
    var (s, after, asked) := (w.store, Apply(w, l), w.turn.phase.question);
    LinkingIsWellFormed(s, asked, l.task);
    forall q | QuestionOpen(after.store, q) ensures HeldOnDisk(after.store, q) || q in after.lost {
      if q != asked {
        LinkingOpensOne(s, asked, l.task, q);
      }
    }
  }

  /** Taking a question's pause opens no question, and leaves its own in the
    * window. */
  lemma TakingOpensNothing(w: World, l: Label, q: Id)
    requires Inv(w) && Enabled(w, l) && l.TakePause? && QuestionOpen(Apply(w, l).store, q)
    ensures HeldOnDisk(Apply(w, l).store, q) || q in w.lost || q in InWindow(Apply(w, l))
  {
    QuestionOpenReads(w.store, Apply(w, l).store, q);
  }

  lemma AnswerStepsOpenNothing(w: World, l: Label, q: Id)
    requires Inv(w) && Enabled(w, l) && Answers(l) && !l.TakePause? && QuestionOpen(Apply(w, l).store, q)
    ensures HeldOnDisk(Apply(w, l).store, q) || q in Apply(w, l).lost || q in InWindow(Apply(w, l))
  {
    QuestionOpenReads(w.store, Apply(w, l).store, q);
  }

  lemma TakingKeepsDurable(w: World, l: Label)
    requires Inv(w) && Enabled(w, l) && l.TakePause?
    ensures DurableInv(Apply(w, l))
  {
    var after := Apply(w, l);
    forall q | QuestionOpen(after.store, q)
      ensures HeldOnDisk(after.store, q) || q in after.lost || q in InWindow(after)
    {
      TakingOpensNothing(w, l, q);
    }
  }

  lemma AnswerStepsKeepDurable(w: World, l: Label)
    requires Inv(w) && Enabled(w, l) && Answers(l) && !l.TakePause?
    ensures DurableInv(Apply(w, l))
  {
    var after := Apply(w, l);
    forall q | QuestionOpen(after.store, q)
      ensures HeldOnDisk(after.store, q) || q in after.lost || q in InWindow(after)
    {
      AnswerStepsOpenNothing(w, l, q);
    }
  }

  lemma StepKeepsDurable(w: World, l: Label)
    requires Inv(w) && Enabled(w, l)
    ensures DurableInv(Apply(w, l))
  {
    if l.Command? { CommandKeepsDurable(w, l); }
    else if l.SettleTurn? { SettleKeepsDurable(w, l); }
    else if l.Restart? { RestartKeepsDurable(w); }
    else if l.EngineWrites? { EngineWritesKeepDurable(w, l); }
    else if l.AskQuestion? { AskKeepsDurable(w, l); }
    else if l.SavePause? { SaveKeepsDurable(w, l); }
    else if l.LinkTask? { LinkKeepsDurable(w, l); }
    else if l.TakePause? { TakingKeepsDurable(w, l); }
    else if !ReadsStore(l) { AnswerStepsKeepDurable(w, l); }
    else if ControlStep(l) { ControlKeepsDurable(w, l); }
    else if EngineStep(l) { EngineKeepsDurable(w, l); }
    else { ThreadKeepsDurable(w, l); }
  }

  // ---- the notes ----

  lemma GoneGrows(gone: seq<FatedNote>, notes: seq<Note>, fate: Fate)
    ensures NotesOf(gone + WithFate(notes, fate)) == NotesOf(gone) + notes
  {
  }

  /** A command that hands no job over queues the note it brings, if any. */
  lemma CommandKeepsNotes(h: Host, c: ControlCommand)
    requires !c.Shutdown? && !c.Resume?
    ensures var (after, answer) := Dispatch(h, c);
            after.slot.serial == h.slot.serial ==>
              after.slot.handles.notes == h.slot.handles.notes + if c.QueueNote? && answer.Accepted? then [c.text] else []
  {
    if StartJob(c).Some? { StartEffect(h, c); }
    else if AnswersPending(c) { AnswerEffect(h, c); }
  }

  lemma CommandKeepsLedger(w: World, l: Label)
    requires Inv(w) && Enabled(w, l) && l.Command?
    ensures LedgerInv(Apply(w, l))
  {
    if Dispatch(w.host, l.command).0.slot.serial == w.host.slot.serial {
      CommandKeepsNotes(w.host, l.command);
    } else {
      CommandEffect(w.host, l.command);
      GoneGrows(w.ledger.gone, w.host.slot.handles.notes, Discarded);
    }
  }

  lemma ControlKeepsLedger(w: World, l: Label)
    requires Inv(w) && Enabled(w, l) && ControlStep(l)
    ensures LedgerInv(Apply(w, l))
  {
  }

  lemma TurnKeepsLedger(w: World, l: Label)
    requires Inv(w) && Enabled(w, l) && TurnStep(l) && !EngineStep(l)
    ensures LedgerInv(Apply(w, l))
  {
    GoneGrows(w.ledger.gone, w.host.slot.handles.notes, Delivered);
  }

  lemma RestartKeepsLedger(w: World)
    requires Inv(w)
    ensures LedgerInv(Boot(w))
  {
    GoneGrows(w.ledger.gone, w.host.slot.handles.notes, LostInRestart);
  }

  lemma StepKeepsLedger(w: World, l: Label)
    requires Inv(w) && Enabled(w, l)
    ensures LedgerInv(Apply(w, l))
  {
    if l.Command? { CommandKeepsLedger(w, l); }
    else if ControlStep(l) { ControlKeepsLedger(w, l); }
    else if EngineStep(l) { EngineStaysInside(w, l); }
    else if l.Restart? { RestartKeepsLedger(w); }
    else { TurnKeepsLedger(w, l); }
  }

  lemma StepKeepsInv(w: World, l: Label)
    requires Inv(w) && Enabled(w, l)
    ensures Inv(Apply(w, l))
  {
    if l.Command? { CommandKeepsChannel(w, l); }
    else if ControlStep(l) { ControlKeepsChannel(w, l); }
    else if TurnStep(l) { TurnKeepsChannel(w, l); }
    StepKeepsDurable(w, l);
    StepKeepsLedger(w, l);
  }
}
