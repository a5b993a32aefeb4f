/** Concrete runs of the worker that reach the states `TurnDurability` speaks
  * of: a card nothing can answer, with and without a crash, a waiting task
  * nothing shows, and a review offered again after it was taken up.
  *
  * All four start alike: one task waits on one decision, the user answers it,
  * and the turn thread picks the answer up.
  */
module TurnExamples {
  import opened Common
  import opened TurnHost
  import opened DecisionStore
  import opened TurnProtocol
  import opened TurnTheorems
  import opened TurnDurability

  const CLEAR := Handles(false, false, [])

  /** A worker whose other threads are at rest, on a store that knows one
    * paused turn. */
  function Shot(slot: Slot, queue: seq<Ticket>, turn: TurnPos, store: Store, known: Id, lost: set<Id>): World {
    World(Host(slot, Open(queue)), seq(slot.serial, _ => CLEAR), turn, Serving, Waiting, false,
          store, {known}, lost, Ledger([], []))
  }

  function Offering(serial: nat, p: Option<Pending>): Slot {
    Slot(if p.Some? then WaitingForApproval else Idle, serial, CLEAR, p)
  }

  /** The decision on offer, its answer queued, received, and entered. */
  function Opening(store: Store, p: Pending, job: TurnJob): seq<World> {
    var (running, ticket) := (Slot(Running, 1, CLEAR, None), Ticket(job, 1));
    [ Shot(Offering(0, Some(p)), [], AtRecv, store, p.id, {}),
      Shot(running, [ticket], AtRecv, store, p.id, {}),
      Shot(running, [], Received(ticket), store, p.id, {}),
      Shot(running, [], Turning(ticket, 1, Entry), store, p.id, {}) ]
  }

  /** The command is the answer this job carries. */
  predicate Brings(command: ControlCommand, p: Pending, job: TurnJob) {
    match command
    case Approve(id, budget) => p == Pending(id, PlanKind) && job == DecideJob(id, PlanKind, true, budget)
    case AnswerQuestion(id, answer, option) => p == Pending(id, QuestionKind) && job == AnswerJob(id, answer, option)
    case _ => false
  }

  ghost predicate Legal(store: Store, p: Pending) {
    && WellFormed(store) && store.paused.Keys == {p.id} && RestoredDecision(store) == Some(p)
    && forall q | QuestionOpen(store, q) :: HeldOnDisk(store, q)
  }

  lemma OpeningBegins(store: Store, p: Pending, job: TurnJob, command: ControlCommand)
    requires Legal(store, p) && Brings(command, p, job)
    ensures Init(Opening(store, p, job)[0])
    ensures Step(Opening(store, p, job)[0], Command(command), Opening(store, p, job)[1])
  {
    var ws := Opening(store, p, job);
    AnswerIsAcceptedIffItFits(ws[0].host, command);
    assert Apply(ws[0], Command(command)).past == ws[1].past;
    assert [] + [Ticket(job, 1)] == [Ticket(job, 1)];
  }

  lemma OpeningGoesOn(store: Store, p: Pending, job: TurnJob)
    ensures var ws := Opening(store, p, job); Step(ws[1], Receive, ws[2]) && Step(ws[2], ReadHandles, ws[3])
  {
    assert [Ticket(job, 1)][1..] == [];
  }

  function OpeningSteps(command: ControlCommand): seq<Label> {
    [Command(command), Receive, ReadHandles]
  }

  lemma OpeningRuns(store: Store, p: Pending, job: TurnJob, command: ControlCommand)
    requires Legal(store, p) && Brings(command, p, job)
    ensures Run(Opening(store, p, job), OpeningSteps(command))
  {
    OpeningBegins(store, p, job, command);
    OpeningGoesOn(store, p, job);
  }

  lemma OneMoreStep(ws: seq<World>, ls: seq<Label>, l: Label, b: World)
    requires Run(ws, ls) && Step(ws[|ls|], l, b)
    ensures Run(ws + [b], ls + [l])
  {
    forall i | 0 <= i < |ls| ensures Step(ws[i], ls[i], ws[i + 1]) {
      StepOf(ws, ls, i);
    }
  }

  // ---- one question ----

  const QUESTION := Pending("question", QuestionKind)
  const ANSWER := AnswerQuestion("question", "yes", None)
  const ANSWERING := AnswerJob("question", "yes", None)

  function OneQuestion(paused: map<Id, PausedTurn>): Store {
    Store([Task("task", true, Some(Asked("question")))], map["question" := Question("task", false)], paused, {})
  }

  const ASKED := OneQuestion(map["question" := QuestionPause])

  lemma OneQuestionIsRestored(paused: map<Id, PausedTurn>)
    ensures RestoredDecision(OneQuestion(paused)) == Some(QUESTION)
  {
    var s := OneQuestion(paused);
    assert s.tasks[0].waiting;
    assert NewestWaiting(s.tasks).value == 0;
  }

  lemma AskedIsLegal()
    ensures Legal(ASKED, QUESTION)
  {
    OneQuestionIsRestored(ASKED.paused);
  }

  /** The turn holds the pause, and the disk does not. */
  function InTheWindow(): World {
    Shot(Slot(Running, 1, CLEAR, None), [], Turning(Ticket(ANSWERING, 1), 1, Taken(QuestionPause)),
         OneQuestion(map[]), "question", {})
  }

  lemma TheAnswerIsTakenUp()
    ensures Step(Opening(ASKED, QUESTION, ANSWERING)[3], TakePause(true), InTheWindow())
  {
    assert ASKED.paused - {"question"} == map[];
  }

  function DeadCard(serial: nat): World {
    Shot(Offering(serial, Some(QUESTION)), [], AtRecv, OneQuestion(map[]), "question", {"question"})
  }

  /** The process stops before the answer is recorded. */
  const CRASH_STEPS := OpeningSteps(ANSWER) + [TakePause(true)] + [Restart]

  function CrashRun(): seq<World> {
    Opening(ASKED, QUESTION, ANSWERING) + [InTheWindow()] + [DeadCard(2)]
  }

  lemma TheWindowRestarts()
    ensures Step(InTheWindow(), Restart, DeadCard(2))
  {
    OneQuestionIsRestored(map[]);
    assert Boot(InTheWindow()).past == DeadCard(2).past;
    assert Boot(InTheWindow()).ledger.gone == [];
  }

  /** A crash in the window leaves a card with no paused turn behind it. */
  lemma CrashCanLoseTheTurnBehindACard()
    ensures Run(CrashRun(), CRASH_STEPS)
    ensures Offered(CrashRun()[5].host.slot) == Some(QUESTION) && !HeldOnDisk(CrashRun()[5].store, "question")
  {
    AskedIsLegal();
    TheAnswerIsTakenUp();
    TheWindowRestarts();
    var (ws, ls) := (Opening(ASKED, QUESTION, ANSWERING), OpeningSteps(ANSWER));
    OpeningRuns(ASKED, QUESTION, ANSWERING, ANSWER);
    OneMoreStep(ws, ls, TakePause(true), InTheWindow());
    OneMoreStep(ws + [InTheWindow()], ls + [TakePause(true)], Restart, DeadCard(2));
  }

  /** The answer cannot be recorded and the pause cannot be put back. */
  const FAILED_STEPS := OpeningSteps(ANSWER) + [TakePause(true)] + [DropsPause] + [SettleTurn]

  function PauseDropped(): World {
    Shot(Slot(Running, 1, CLEAR, None), [], Finished(Ticket(ANSWERING, 1), Failed),
         OneQuestion(map[]), "question", {"question"})
  }

  function FailedRun(): seq<World> {
    Opening(ASKED, QUESTION, ANSWERING) + [InTheWindow()] + [PauseDropped()] + [DeadCard(1)]
  }

  lemma TheFailureSettles()
    ensures Step(InTheWindow(), DropsPause, PauseDropped())
    ensures Step(PauseDropped(), SettleTurn, DeadCard(1))
  {
    assert LinkedAt(OneQuestion(map[]).tasks, 0, Asked("question"));
    RefusedQuestionRestoresIffOpen(OneQuestion(map[]), "question");
  }

  /** So does an answer that failed and could not put its pause back, with no
    * restart at all. */
  lemma FailedPutBackCanLoseTheTurnBehindACard()
    ensures Run(FailedRun(), FAILED_STEPS) && forall i | 0 <= i < |FAILED_STEPS| :: !FAILED_STEPS[i].Restart? && !FAILED_STEPS[i].ThreadDies?
    ensures Offered(FailedRun()[6].host.slot) == Some(QUESTION) && !HeldOnDisk(FailedRun()[6].store, "question")
  {
    AskedIsLegal();
    TheAnswerIsTakenUp();
    TheFailureSettles();
    var (ws, ls) := (Opening(ASKED, QUESTION, ANSWERING), OpeningSteps(ANSWER));
    OpeningRuns(ASKED, QUESTION, ANSWERING, ANSWER);
    OneMoreStep(ws, ls, TakePause(true), InTheWindow());
    OneMoreStep(ws + [InTheWindow()], ls + [TakePause(true)], DropsPause, PauseDropped());
    OneMoreStep(ws + [InTheWindow()] + [PauseDropped()], ls + [TakePause(true)] + [DropsPause], SettleTurn, DeadCard(1));
  }

  // ---- one plan review ----

  const REVIEW := Pending("review", PlanKind)
  const APPROVAL := Approve("review", None)
  const APPROVING := DecideJob("review", PlanKind, true, None)

  function OneReview(paused: map<Id, PausedTurn>): Store {
    Store([Task("task", true, Some(PlanReview("review")))], map[], paused, {"task"})
  }

  const REVIEWED := OneReview(map["review" := PlanPause(true)])

  lemma OneReviewIsRestored(paused: map<Id, PausedTurn>)
    requires paused in {map[], REVIEWED.paused}
    ensures RestoredDecision(OneReview(paused)) == (if paused == map[] then None else Some(REVIEW))
    ensures WaitsForReview(OneReview(paused), "review")
  {
    var s := OneReview(paused);
    assert s.tasks[0].waiting;
    assert NewestWaiting(s.tasks).value == 0;
  }

  lemma ReviewedIsLegal()
    ensures Legal(REVIEWED, REVIEW)
  {
    OneReviewIsRestored(REVIEWED.paused);
  }

  /** The engine goes on with the approved plan. */
  function Approved(store: Store): World {
    Shot(Slot(Running, 1, CLEAR, None), [], Turning(Ticket(APPROVING, 1), 1, Rolling), store, "review", {})
  }

  function Restarted(store: Store): World {
    Shot(Offering(2, RestoredDecision(store)), [], AtRecv, store, "review", {})
  }

  lemma TheReviewIsTakenUp(removed: bool)
    ensures Step(Opening(REVIEWED, REVIEW, APPROVING)[3], TakePause(removed),
                 Approved(if removed then OneReview(map[]) else REVIEWED))
  {
    assert REVIEWED.paused - {"review"} == map[];
    assert REVIEWED.paused - {} == REVIEWED.paused;
  }

  lemma TheApprovalRestarts(store: Store)
    ensures Step(Approved(store), Restart, Restarted(store))
  {
    assert Boot(Approved(store)).past == Restarted(store).past;
    assert Boot(Approved(store)).ledger.gone == [];
  }

  /** The process stops right after the review was taken up. */
  function ReviewRun(removed: bool): seq<World> {
    var store := if removed then OneReview(map[]) else REVIEWED;
    Opening(REVIEWED, REVIEW, APPROVING) + [Approved(store)] + [Restarted(store)]
  }

  /** A waiting task with nothing on offer; or the same review on offer again,
    * when its file could not be removed. */
  lemma CrashAfterAReviewIsTaken(removed: bool)
    ensures Run(ReviewRun(removed), OpeningSteps(APPROVAL) + [TakePause(removed)] + [Restart])
    ensures WaitsForReview(ReviewRun(removed)[5].store, "review")
    ensures Offered(ReviewRun(removed)[5].host.slot) == (if removed then None else Some(REVIEW))
  {
    var store := if removed then OneReview(map[]) else REVIEWED;
    ReviewedIsLegal();
    OneReviewIsRestored(store.paused);
    TheReviewIsTakenUp(removed);
    TheApprovalRestarts(store);
    var (ws, ls) := (Opening(REVIEWED, REVIEW, APPROVING), OpeningSteps(APPROVAL));
    OpeningRuns(REVIEWED, REVIEW, APPROVING, APPROVAL);
    OneMoreStep(ws, ls, TakePause(removed), Approved(store));
    OneMoreStep(ws + [Approved(store)], ls + [TakePause(removed)], Restart, Restarted(store));
  }
}
