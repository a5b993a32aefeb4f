/** What survives a worker process: the session's tasks, its questions, the
  * paused turns on disk and the plans they hold
  * (crates/workspace-engine/src/session.rs and chat.rs), and the code in
  * crates/desktop-shell/src/worker.rs that reads them back.
  */
module DecisionStore {
  import opened Common
  import opened TurnHost

  /** What a waiting task's newest status event links it to. */
  datatype Link = PlanReview(proposalId: Id) | OtherApproval(proposalId: Id) | Asked(questionId: Id)

  datatype Task = Task(id: Id, waiting: bool, link: Option<Link>)

  datatype Question = Question(taskId: Id, answered: bool)

  /** A paused turn's file. A plan review may carry a budget that no longer
    * decodes. */
  datatype PausedTurn = PlanPause(budgetReadable: bool) | QuestionPause | OtherPause

  datatype Store = Store(
    tasks: seq<Task>,              // oldest first
    questions: map<Id, Question>,
    paused: map<Id, PausedTurn>,
    usablePlans: set<Id>)          // tasks whose plan can be read and approved

  /** The ids the engine makes are fresh, so no two tasks share an id and no two
    * waiting tasks share a decision; a task is linked to a question only after
    * the question was recorded. */
  ghost predicate WellFormed(s: Store) {
    && (forall i, j | 0 <= i < j < |s.tasks| :: s.tasks[i].id != s.tasks[j].id)
    && (forall i, j | 0 <= i < j < |s.tasks| && s.tasks[i].waiting && s.tasks[j].waiting && s.tasks[i].link.Some? ::
          s.tasks[i].link != s.tasks[j].link)
    && (forall i, q | LinkedAt(s.tasks, i, Asked(q)) :: q in s.questions)
  }

  predicate WaitsOn(t: Task, link: Link) {
    t.waiting && t.link == Some(link)
  }

  /** The task that waits on `link` at index `i`, if it does. */
  predicate LinkedAt(tasks: seq<Task>, i: int, link: Link) {
    0 <= i < |tasks| && WaitsOn(tasks[i], link)
  }

  /** The plan review `id` can be shown and approved: a task waits on it, the
    * task's plan is usable, and the paused turn is that review. */
  ghost predicate PlanOpen(s: Store, id: Id) {
    && id in s.paused && s.paused[id] == PlanPause(true)
    && exists i :: LinkedAt(s.tasks, i, PlanReview(id)) && s.tasks[i].id in s.usablePlans
  }

  /** The question `id` is unanswered and the task that asked it waits on it. */
  ghost predicate QuestionOpen(s: Store, id: Id) {
    && id in s.questions
    && !s.questions[id].answered
    && exists i :: LinkedAt(s.tasks, i, Asked(id)) && s.tasks[i].id == s.questions[id].taskId
  }

  /** The decisions that can outlive the process. */
  ghost predicate StillOpen(s: Store, p: Pending) {
    (p.kind == PlanKind && PlanOpen(s, p.id)) || (p.kind == QuestionKind && QuestionOpen(s, p.id))
  }

  function LinkOf(p: Pending): Link {
    if p.kind == QuestionKind then Asked(p.id) else PlanReview(p.id)
  }

  // ---- reading the store back ----

  /** Index of the newest waiting task, or `None`. */
  function NewestWaiting(tasks: seq<Task>): (r: Option<nat>)
    ensures r.Some? ==> r.value < |tasks| && tasks[r.value].waiting
    ensures forall i | 0 <= i < |tasks| && tasks[i].waiting :: r.Some? && i <= r.value
  {
    if tasks == [] then None
    else if tasks[|tasks| - 1].waiting then Some(|tasks| - 1)
    else NewestWaiting(tasks[..|tasks| - 1])
  }

  /** Index of the oldest task waiting on `link`, or `None`. */
  function FirstLinked(s: Store, link: Link, from: nat := 0): (r: Option<nat>)
    requires from <= |s.tasks|
    ensures r.Some? ==> LinkedAt(s.tasks, r.value, link)
    ensures r.None? ==> forall i | from <= i :: !LinkedAt(s.tasks, i, link)
    decreases |s.tasks| - from
  {
    if from == |s.tasks| then None
    else if WaitsOn(s.tasks[from], link) then Some(from)
    else FirstLinked(s, link, from + 1)
  }

  /** Index of the oldest waiting task with this id, or `None`. */
  function FirstWaitingWithId(s: Store, id: Id, from: nat := 0): (r: Option<nat>)
    requires from <= |s.tasks|
    ensures r.Some? ==> r.value < |s.tasks| && s.tasks[r.value].waiting && s.tasks[r.value].id == id
    ensures r.None? ==> forall i | from <= i < |s.tasks| && s.tasks[i].waiting :: s.tasks[i].id != id
    decreases |s.tasks| - from
  {
    if from == |s.tasks| then None
    else if s.tasks[from].waiting && s.tasks[from].id == id then Some(from)
    else FirstWaitingWithId(s, id, from + 1)
  }

  /** `durable_plan_proposal`: a missing or corrupt part restores nothing. */
  predicate DurablePlan(s: Store, task: Task, id: Id) {
    task.id in s.usablePlans && id in s.paused && s.paused[id] == PlanPause(true)
  }

  /** `restore_refused_plan_review`, which reads `durable_plan_review`. */
  predicate RefusedPlanRestores(s: Store, id: Id) {
    match FirstLinked(s, PlanReview(id))
    case None => false
    case Some(i) => DurablePlan(s, s.tasks[i], id)
  }

  /** `restore_refused_question`. */
  predicate RefusedQuestionRestores(s: Store, id: Id) {
    id in s.questions && !s.questions[id].answered &&
    match FirstWaitingWithId(s, s.questions[id].taskId)
    case None => false
    case Some(i) => s.tasks[i].link == Some(Asked(id))
  }

  /** `restore_pending_decision`: only the newest waiting task is considered. */
  function RestoredDecision(s: Store): Option<Pending> {
    match NewestWaiting(s.tasks)
    case None => None
    case Some(i) =>
      match s.tasks[i].link
      case Some(PlanReview(id)) =>
        if DurablePlan(s, s.tasks[i], id) then Some(Pending(id, PlanKind)) else None
      case Some(Asked(id)) =>
        if id in s.questions && s.questions[id].taskId == s.tasks[i].id && !s.questions[id].answered
        then Some(Pending(id, QuestionKind)) else None
      case _ => None
  }

  // ---- what reading it back means ----

  /** A refused plan decision is offered again exactly when the review is
    * still open. */
  lemma RefusedPlanRestoresIffOpen(s: Store, id: Id)
    requires WellFormed(s)
    ensures RefusedPlanRestores(s, id) <==> PlanOpen(s, id)
  {
    var first := FirstLinked(s, PlanReview(id));
    if PlanOpen(s, id) {
      var i :| LinkedAt(s.tasks, i, PlanReview(id)) && s.tasks[i].id in s.usablePlans;
      assert first.Some? && first.value == i;
    }
  }

  /** A refused answer leaves the card answerable exactly when the question is
    * still open. */
  lemma RefusedQuestionRestoresIffOpen(s: Store, id: Id)
    requires WellFormed(s)
    ensures RefusedQuestionRestores(s, id) <==> QuestionOpen(s, id)
  {
    if id in s.questions {
      var first := FirstWaitingWithId(s, s.questions[id].taskId);
      if QuestionOpen(s, id) {
        var i :| LinkedAt(s.tasks, i, Asked(id)) && s.tasks[i].id == s.questions[id].taskId;
        assert first.Some? && first.value == i;
      } else if RefusedQuestionRestores(s, id) {
        assert LinkedAt(s.tasks, first.value, Asked(id));
      }
    }
  }

  /** A restart offers a decision exactly when it is still open and the task
    * that waits on it is the newest waiting one. */
  lemma RestartOffersTheNewestOpenDecision(s: Store, p: Pending)
    requires WellFormed(s)
    ensures RestoredDecision(s) == Some(p) <==>
            StillOpen(s, p) && exists i: nat :: NewestWaiting(s.tasks) == Some(i) && LinkedAt(s.tasks, i, LinkOf(p))
  {
    var newest := NewestWaiting(s.tasks);
    if RestoredDecision(s) == Some(p) {
      assert LinkedAt(s.tasks, newest.value, LinkOf(p));
    }
    if StillOpen(s, p) && newest.Some? && LinkedAt(s.tasks, newest.value, LinkOf(p)) {
      if p.kind == PlanKind {
        var i :| LinkedAt(s.tasks, i, PlanReview(p.id)) && s.tasks[i].id in s.usablePlans;
        assert i == newest.value;
      } else {
        var i :| LinkedAt(s.tasks, i, Asked(p.id)) && s.tasks[i].id == s.questions[p.id].taskId;
        assert i == newest.value;
      }
    }
  }
}
