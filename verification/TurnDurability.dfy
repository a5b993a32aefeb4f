/** What the durable store guarantees across refusals, crashes and restarts:
  * which decisions come back, which never do, and the one case where a card
  * comes back that nothing can answer.
  */
module TurnDurability {
  import opened Common
  import opened TurnHost
  import opened DecisionStore
  import opened TurnProtocol
  import opened TurnTheorems
  import opened Runs

  // ---- what comes back ----

  /** After a restart a decision is offered exactly when the store still holds
    * it open and its task is the newest waiting one; one that was on offer
    * when the process stopped is among those. */
  lemma RestartOffersExactly(ws: seq<World>, ls: seq<Label>, i: nat, p: Pending)
    requires Run(ws, ls) && i < |ls| && ls[i].Restart?
    ensures Offered(ws[i + 1].host.slot) == Some(p) <==>
            StillOpen(ws[i].store, p)
            && exists n: nat :: NewestWaiting(ws[i].store.tasks) == Some(n) && LinkedAt(ws[i].store.tasks, n, LinkOf(p))
    ensures Offered(ws[i].host.slot) == Some(p) && p.kind in {PlanKind, QuestionKind} ==> StillOpen(ws[i].store, p)
  {
    RunKeepsInv(ws, ls, i);
    assert Step(ws[i], ls[i], ws[i + 1]);
    RestartOffersTheNewestOpenDecision(ws[i].store, p);
  }

  /** The decision of a job the engine turned down without consuming it. */
  function RefusedDecision(job: TurnJob): Option<Pending> {
    if PlanDecision(job) then Some(Pending(job.proposalId, PlanKind))
    else if job.AnswerJob? then Some(Pending(job.questionId, QuestionKind))
    else None
  }

  /** Whatever the reason a turn failed, it settles on its decision exactly
    * when that decision is still open on disk, and otherwise on nothing. */
  lemma FailedTurnSettlesIffOpen(ws: seq<World>, ls: seq<Label>, i: nat)
    requires Run(ws, ls) && i < |ls| && ls[i].SettleTurn? && Alive(ws[i])
    requires ws[i].turn.Finished? && ws[i].turn.outcome.Failed?
    ensures var p := RefusedDecision(JobOf(ws[i]));
            Offered(ws[i + 1].host.slot) == if p.Some? && StillOpen(ws[i].store, p.value) then p else None
  {
    RunKeepsInv(ws, ls, i);
    assert Step(ws[i], ls[i], ws[i + 1]);
    var job := JobOf(ws[i]);
    if PlanDecision(job) { RefusedPlanRestoresIffOpen(ws[i].store, job.proposalId); }
    if job.AnswerJob? { RefusedQuestionRestoresIffOpen(ws[i].store, job.questionId); }
  }

  /** The engine refused before consuming anything, put the pause back, or
    * failed to. */
  predicate Refuses(l: Label) {
    l.EngineRefuses? || l.PutBack? || l.DropsPause?
  }

  lemma StepRefuses(w: World, l: Label)
    requires Inv(w) && Enabled(w, l) && Refuses(l)
    ensures var after := Apply(w, l); after.turn == Finished(w.turn.ticket, Failed) && AnswersOpen(after.store, JobOf(w))
  {
    if l.PutBack? || l.DropsPause? {
      QuestionOpenReads(w.store, Apply(w, l).store, JobOf(w).questionId);
    }
  }

  /** The control, main and lifeline threads leave the store and the turn
    * alone; a restart leaves the store alone. */
  lemma ControlStaysOut(w: World, l: Label)
    requires Enabled(w, l) && !TurnStep(l)
    ensures Apply(w, l).store == w.store && Apply(w, l).used == w.used
    ensures Apply(w, l).turn == if l.Restart? then AtRecv else w.turn
  {
  }

  predicate Ends(l: Label) {
    l.SettleTurn? || l.ThreadDies? || l.Restart?
  }

  lemma FinishedNext(w: World, l: Label)
    requires Enabled(w, l) && w.turn.Finished? && !Ends(l)
    ensures Apply(w, l).turn == w.turn && Apply(w, l).store == w.store
  {
    if !TurnStep(l) {
      ControlStaysOut(w, l);
    }
  }

  predicate SameTurn(a: World, b: World) {
    b.turn == a.turn && b.store == a.store
  }

  /** Nothing but settling, dying or restarting moves a finished turn. */
  lemma FinishedWaits(ws: seq<World>, ls: seq<Label>, i: nat, j: nat)
    requires Run(ws, ls) && i <= j < |ws| && ws[i].turn.Finished?
    requires forall k | i <= k < j :: !Ends(ls[k])
    ensures SameTurn(ws[i], ws[j])
  {
    var a := ws[i];
    forall k | i <= k < j && SameTurn(a, ws[k]) ensures SameTurn(a, ws[k + 1]) {
      StepOf(ws, ls, k);
      FinishedNext(ws[k], ls[k]);
    }
    HoldsLater((w: World) => SameTurn(a, w), ws, i, j);
  }

  /** A refused decision is shown again: when the engine turns an answer down,
    * the turn settles on the same plan review or question. */
  lemma RefusedDecisionIsOfferedAgain(ws: seq<World>, ls: seq<Label>, i: nat, j: nat)
    requires Run(ws, ls) && i < j < |ls| && Refuses(ls[i]) && ls[j].SettleTurn? && Alive(ws[j])
    requires forall k | i < k < j :: !Ends(ls[k])
    ensures ws[i].turn.Turning? && Offered(ws[j + 1].host.slot) == RefusedDecision(JobOf(ws[i]))
  {
    RunKeepsInv(ws, ls, i);
    assert Step(ws[i], ls[i], ws[i + 1]);
    StepRefuses(ws[i], ls[i]);
    FinishedWaits(ws, ls, i + 1, j);
    FailedTurnSettlesIffOpen(ws, ls, j);
  }

  // ---- what never comes back ----

  lemma AnsweredNext(w: World, l: Label, q: Id)
    requires Enabled(w, l) && AlreadyAnswered(w.store, q)
    ensures AlreadyAnswered(Apply(w, l).store, q)
  {
    if !TurnStep(l) {
      ControlStaysOut(w, l);
    }
  }

  lemma AnsweredStays(ws: seq<World>, ls: seq<Label>, i: nat, j: nat, q: Id)
    requires Run(ws, ls) && i <= j < |ws| && AlreadyAnswered(ws[i].store, q)
    ensures AlreadyAnswered(ws[j].store, q)
  {
    forall k | i <= k < j && AlreadyAnswered(ws[k].store, q) ensures AlreadyAnswered(ws[k + 1].store, q) {
      StepOf(ws, ls, k);
      AnsweredNext(ws[k], ls[k], q);
    }
    HoldsLater((w: World) => AlreadyAnswered(w.store, q), ws, i, j);
  }

  /** A question whose answer was recorded is never offered again, and never
    * answered a second time, in this process or any later one. */
  lemma AnsweredQuestionIsNeverOfferedAgain(ws: seq<World>, ls: seq<Label>, i: nat, j: nat)
    requires Run(ws, ls) && i < j < |ws| && ls[i].RecordAnswer?
    ensures ws[i].turn.Turning? && JobOf(ws[i]).AnswerJob?
    ensures Offered(ws[j].host.slot) != Some(Pending(JobOf(ws[i]).questionId, QuestionKind))
    ensures j < |ls| && ls[j].RecordAnswer? ==> ws[j].turn.Turning? && JobOf(ws[j]) != JobOf(ws[i])
  {
    RunKeepsInv(ws, ls, j);
    assert Step(ws[i], ls[i], ws[i + 1]);
    AnsweredStays(ws, ls, i + 1, j, JobOf(ws[i]).questionId);
    if j < |ls| { assert Step(ws[j], ls[j], ws[j + 1]); }
  }

  /** The ids whose paused turn this turn may put on disk next. */
  function InHand(turn: TurnPos): set<Id> {
    if turn.Turning? && turn.phase.Taken? && turn.ticket.job.AnswerJob? then {turn.ticket.job.questionId}
    else if turn.Turning? && turn.phase.Asking? then {turn.phase.question}
    else {}
  }

  /** The pause behind `id` is off disk for good. */
  predicate Consumed(w: World, id: Id) {
    id in w.used && id !in w.store.paused && id !in InHand(w.turn)
  }

  lemma QuietStepConsumes(w: World, l: Label, id: Id)
    requires Enabled(w, l) && !TurnStep(l) && Consumed(w, id)
    ensures Consumed(Apply(w, l), id)
  {
    ControlStaysOut(w, l);
  }

  lemma ThreadStepConsumes(w: World, l: Label, id: Id)
    requires Enabled(w, l) && TurnStep(l) && ReadsStore(l) && Consumed(w, id)
    ensures Consumed(Apply(w, l), id)
  {
  }

  lemma AnswerStepConsumes(w: World, l: Label, id: Id)
    requires Enabled(w, l) && Answers(l) && Consumed(w, id)
    ensures Consumed(Apply(w, l), id)
  {
  }

  lemma EngineWriteConsumes(w: World, l: Label, id: Id)
    requires Enabled(w, l) && (Asks(l) || l.EngineWrites?) && Consumed(w, id)
    ensures Consumed(Apply(w, l), id)
  {
  }

  lemma ConsumedNext(w: World, l: Label, id: Id)
    requires Enabled(w, l) && Consumed(w, id)
    ensures Consumed(Apply(w, l), id)
  {
    if !TurnStep(l) { QuietStepConsumes(w, l, id); }
    else if ReadsStore(l) { ThreadStepConsumes(w, l, id); }
    else if Answers(l) { AnswerStepConsumes(w, l, id); }
    else { EngineWriteConsumes(w, l, id); }
  }

  lemma ConsumedStays(ws: seq<World>, ls: seq<Label>, i: nat, j: nat, id: Id)
    requires Run(ws, ls) && i <= j < |ws| && Consumed(ws[i], id)
    ensures Consumed(ws[j], id)
  {
    forall k | i <= k < j && Consumed(ws[k], id) ensures Consumed(ws[k + 1], id) {
      StepOf(ws, ls, k);
      ConsumedNext(ws[k], ls[k], id);
    }
    HoldsLater((w: World) => Consumed(w, id), ws, i, j);
  }

  /** The engine takes the plan review `id` up and its pause off disk. */
  predicate TakesReview(w: World, l: Label, id: Id) {
    l.TakePause? && l.removed && w.turn.Turning? && PlanDecision(JobOf(w)) && JobOf(w).proposalId == id
  }

  /** A plan review the engine took off disk is never offered again and never taken a
    * second time, even when the process stops right after it was taken. */
  lemma TakenReviewIsNeverOfferedAgain(ws: seq<World>, ls: seq<Label>, i: nat, j: nat, id: Id)
    requires Run(ws, ls) && i < j < |ws| && TakesReview(ws[i], ls[i], id)
    ensures Offered(ws[j].host.slot) != Some(Pending(id, PlanKind))
    ensures j < |ls| && ls[j].TakePause? ==> ws[j].turn.Turning? && RefusedDecision(JobOf(ws[j])) != Some(Pending(id, PlanKind))
  {
    RunKeepsInv(ws, ls, i);
    RunKeepsInv(ws, ls, j);
    assert Step(ws[i], ls[i], ws[i + 1]);
    ConsumedStays(ws, ls, i + 1, j, id);
    if j < |ls| { assert Step(ws[j], ls[j], ws[j + 1]); }
  }

  // ---- the card nothing can answer ----

  /** The turn left the window between taking this question's pause off disk and
    * recording the answer with neither done: the process or its turn thread
    * stopped there, or the turn failed and did not put the pause back. */
  predicate LosesPause(w: World, l: Label, q: Id) {
    ((l.Restart? || l.ThreadDies?) && q in InWindow(w))
    || (l.DropsPause? && w.turn.Turning? && JobOf(w).AnswerJob? && JobOf(w).questionId == q)
  }

  lemma DroppingConsumes(w: World, l: Label, q: Id)
    requires Inv(w) && Enabled(w, l) && l.DropsPause? && LosesPause(w, l, q)
    ensures Consumed(Apply(w, l), q)
  {
  }

  lemma LosingConsumes(w: World, l: Label, q: Id)
    requires Inv(w) && Enabled(w, l) && LosesPause(w, l, q)
    ensures Consumed(Apply(w, l), q)
  {
    if l.DropsPause? { DroppingConsumes(w, l, q); }
  }

  /** A question joins the lost ones only that way. */
  lemma LostNext(w: World, l: Label, q: Id)
    requires Enabled(w, l) && q !in w.lost && q in Apply(w, l).lost
    ensures LosesPause(w, l, q)
  {
  }

  lemma LostIsConsumed(ws: seq<World>, ls: seq<Label>, j: nat, i: nat, q: Id)
    requires Run(ws, ls) && j < i < |ws| && LosesPause(ws[j], ls[j], q)
    ensures Consumed(ws[i], q)
  {
    RunKeepsInv(ws, ls, j);
    StepOf(ws, ls, j);
    LosingConsumes(ws[j], ls[j], q);
    ConsumedStays(ws, ls, j + 1, i, q);
  }

  /** How a question's pause got lost: before the run, or by a turn that left
    * that window with nothing done. */
  lemma LostInTheWindow(ws: seq<World>, ls: seq<Label>, i: nat, q: Id)
    requires Run(ws, ls) && i < |ws| && q in ws[i].lost
    ensures q in ws[0].lost || exists j | 0 <= j < i :: LosesPause(ws[j], ls[j], q)
    ensures Consumed(ws[i], q)
  {
    if q in ws[0].lost {
      ConsumedStays(ws, ls, 0, i, q);
    } else {
      var j := BeganAt((w: World) => q in w.lost, ws, 0, i);
      StepOf(ws, ls, j);
      LostNext(ws[j], ls[j], q);
      LostIsConsumed(ws, ls, j, i, q);
    }
  }

  /** A question on offer has no paused turn exactly when a turn once left that
    * window with nothing done, in this run or before it. */
  lemma CardIsDeadIffPauseLost(ws: seq<World>, ls: seq<Label>, i: nat, q: Id)
    requires Run(ws, ls) && i < |ws| && Offered(ws[i].host.slot) == Some(Pending(q, QuestionKind))
    ensures !HeldOnDisk(ws[i].store, q) <==>
            q in ws[0].lost || exists j | 0 <= j < i :: LosesPause(ws[j], ls[j], q)
  {
    RunKeepsInv(ws, ls, i);
    if !HeldOnDisk(ws[i].store, q) {
      assert q in ws[i].lost;
      LostInTheWindow(ws, ls, i, q);
    } else if q in ws[0].lost {
      ConsumedStays(ws, ls, 0, i, q);
    } else if exists j | 0 <= j < i :: LosesPause(ws[j], ls[j], q) {
      var j :| 0 <= j < i && LosesPause(ws[j], ls[j], q);
      LostIsConsumed(ws, ls, j, i, q);
    }
  }

  // ---- what may happen next ----

  /** Steps that may be taken one after the other from here. */
  ghost predicate Path(w: World, ls: seq<Label>)
    decreases |ls|
  {
    ls == [] || (Enabled(w, ls[0]) && Path(Apply(w, ls[0]), ls[1..]))
  }

  /** Somewhere on the path the answer to the question is recorded. */
  ghost predicate AnswersOn(w: World, ls: seq<Label>, q: Id)
    requires Path(w, ls)
    decreases |ls|
  {
    ls != []
    && ((ls[0].RecordAnswer? && w.turn.Turning? && JobOf(w).AnswerJob? && JobOf(w).questionId == q)
        || AnswersOn(Apply(w, ls[0]), ls[1..], q))
  }

  /** Some way on from here records an answer to the question. */
  ghost predicate CanBeAnswered(w: World, q: Id) {
    exists next :: Path(w, next) && AnswersOn(w, next, q)
  }

  lemma PathAnswers(w: World, next: seq<Label>, q: Id)
    requires Path(w, next) && AnswersOn(w, next, q)
    ensures CanBeAnswered(w, q)
  {
  }

  lemma {:induction false} ConsumedIsNeverAnswered(w: World, ls: seq<Label>, q: Id)
    requires Path(w, ls) && Consumed(w, q)
    ensures !AnswersOn(w, ls, q)
    decreases |ls|
  {
    if ls != [] {
      ConsumedNext(w, ls[0], q);
      ConsumedIsNeverAnswered(Apply(w, ls[0]), ls[1..], q);
    }
  }

  /** A path that starts one step earlier. */
  lemma StepBefore(w: World, l: Label, rest: seq<Label>, q: Id)
    requires Enabled(w, l) && Path(Apply(w, l), rest) && AnswersOn(Apply(w, l), rest, q)
    ensures Path(w, [l] + rest) && AnswersOn(w, [l] + rest, q)
  {
    assert ([l] + rest)[1..] == rest;
  }

  predicate OnOffer(w: World, q: Id) {
    Offered(w.host.slot) == Some(Pending(q, QuestionKind)) && w.host.channel.Open?
  }

  predicate EnteredWith(w: World, job: TurnJob) {
    InPhase(w, Entry) && JobOf(w) == job
  }

  lemma EnteredAnswerIsRecorded(w: World, job: TurnJob) returns (next: seq<Label>)
    requires EnteredWith(w, job) && job.AnswerJob?
    requires HeldOnDisk(w.store, job.questionId) && job.questionId in w.store.questions
    requires !AlreadyAnswered(w.store, job.questionId)
    ensures Path(w, next) && AnswersOn(w, next, job.questionId)
  {
    var taken := Apply(w, TakePause(true));
    assert Path(taken, [RecordAnswer]) && AnswersOn(taken, [RecordAnswer], job.questionId);
    next := [TakePause(true)] + [RecordAnswer];
    StepBefore(w, TakePause(true), [RecordAnswer], job.questionId);
  }

  /** The worker takes the answer. */
  lemma AnswerIsQueued(w: World, q: Id, answer: string)
    requires Inv(w) && OnOffer(w, q)
    ensures var command := Command(AnswerQuestion(q, answer, None));
            && Enabled(w, command)
            && var queued := Apply(w, command);
               && Queued(queued, AnswerJob(q, answer, None)) && LockFree(queued) && queued.store == w.store
  {
    AnswerIsAcceptedIffItFits(w.host, AnswerQuestion(q, answer, None));
  }

  predicate Queued(w: World, job: TurnJob) {
    w.turn == AtRecv && w.host.channel.Open? && w.host.channel.queue != [] && w.host.channel.queue[0].job == job
  }

  /** The turn thread starts the queued job. */
  lemma QueuedIsReceived(w: World, job: TurnJob)
    requires Queued(w, job) && LockFree(w)
    ensures Enabled(w, Receive)
            && var received := Apply(w, Receive);
               && Enabled(received, ReadHandles) && received.store == w.store
               && EnteredWith(Apply(received, ReadHandles), job)
               && Apply(received, ReadHandles).store == w.store
  {
  }

  lemma HeldCardIsAnswered(w: World, q: Id, answer: string) returns (next: seq<Label>)
    requires Inv(w) && OnOffer(w, q) && HeldOnDisk(w.store, q)
    ensures Path(w, next) && AnswersOn(w, next, q)
  {
    AnswerIsQueued(w, q, answer);
    var queued := Apply(w, Command(AnswerQuestion(q, answer, None)));
    QueuedIsReceived(queued, AnswerJob(q, answer, None));
    var received := Apply(queued, Receive);
    var rest := EnteredAnswerIsRecorded(Apply(received, ReadHandles), AnswerJob(q, answer, None));
    StepBefore(received, ReadHandles, rest, q);
    StepBefore(queued, Receive, [ReadHandles] + rest, q);
    StepBefore(w, Command(AnswerQuestion(q, answer, None)), [Receive] + ([ReadHandles] + rest), q);
    next := [Command(AnswerQuestion(q, answer, None))] + ([Receive] + ([ReadHandles] + rest));
  }

  /** A question on offer to a live turn thread can still be answered exactly
    * when its paused turn is on disk. Otherwise no answer to it is recorded on
    * any path from here, through any restart. */
  lemma AnswerableIffHeld(ws: seq<World>, ls: seq<Label>, i: nat, q: Id)
    requires Run(ws, ls) && i < |ws| && OnOffer(ws[i], q)
    ensures HeldOnDisk(ws[i].store, q) <==> CanBeAnswered(ws[i], q)
  {
    RunKeepsInv(ws, ls, i);
    if HeldOnDisk(ws[i].store, q) {
      var next := HeldCardIsAnswered(ws[i], q, "");
      PathAnswers(ws[i], next, q);
    } else {
      assert q in ws[i].lost;
      LostInTheWindow(ws, ls, i, q);
      if CanBeAnswered(ws[i], q) {
        var next :| Path(ws[i], next) && AnswersOn(ws[i], next, q);
        ConsumedIsNeverAnswered(ws[i], next, q);
      }
    }
  }

  // ---- the plan task nothing shows ----

  predicate ReviewParked(w: World, id: Id) {
    id in w.store.paused && w.store.paused[id] == PlanPause(true)
  }

  lemma EngineKeepsReview(w: World, l: Label, id: Id)
    requires Inv(w) && Enabled(w, l) && (Asks(l) || l.EngineWrites?) && ReviewParked(w, id)
    ensures ReviewParked(Apply(w, l), id)
  {
  }

  lemma AnswerKeepsReview(w: World, l: Label, id: Id)
    requires Inv(w) && Enabled(w, l) && Answers(l)
    requires ReviewParked(w, id) && !TakesReview(w, l, id) && id !in w.lost
    ensures ReviewParked(Apply(w, l), id)
  {
  }

  lemma ReviewNext(ws: seq<World>, ls: seq<Label>, k: nat, id: Id)
    requires Run(ws, ls) && k < |ls| && ReviewParked(ws[k], id) && !TakesReview(ws[k], ls[k], id)
    ensures ReviewParked(ws[k + 1], id)
  {
    RunKeepsInv(ws, ls, k);
    StepOf(ws, ls, k);
    if id in ws[k].lost {
      LostInTheWindow(ws, ls, k, id);
    }
    if ReadsStore(ls[k]) { StoreStays(ws[k], ls[k]); }
    else if Asks(ls[k]) || ls[k].EngineWrites? { EngineKeepsReview(ws[k], ls[k], id); }
    else { AnswerKeepsReview(ws[k], ls[k], id); }
  }

  lemma StoreStays(w: World, l: Label)
    requires Enabled(w, l) && ReadsStore(l)
    ensures Apply(w, l).store == w.store
  {
  }

  lemma TakingConsumes(ws: seq<World>, ls: seq<Label>, k: nat, j: nat, id: Id)
    requires Run(ws, ls) && k < j < |ws| && TakesReview(ws[k], ls[k], id)
    ensures Consumed(ws[j], id)
  {
    RunKeepsInv(ws, ls, k);
    StepOf(ws, ls, k);
    ConsumedStays(ws, ls, k + 1, j, id);
  }

  lemma {:induction false} ParkedUntilTaken(ws: seq<World>, ls: seq<Label>, i: nat, j: nat, id: Id)
    requires Run(ws, ls) && i <= j < |ws| && ReviewParked(ws[i], id)
    ensures ReviewParked(ws[j], id) <==> !exists k | i <= k < j :: TakesReview(ws[k], ls[k], id)
  {
    if exists k | i <= k < j :: TakesReview(ws[k], ls[k], id) {
      var k :| i <= k < j && TakesReview(ws[k], ls[k], id);
      TakingConsumes(ws, ls, k, j, id);
    } else {
      forall k | i <= k < j && ReviewParked(ws[k], id) ensures ReviewParked(ws[k + 1], id) {
        ReviewNext(ws, ls, k, id);
      }
      HoldsLater((w: World) => ReviewParked(w, id), ws, i, j);
    }
  }

  /** The newest waiting task waits on this plan review, and its plan can be
    * read. */
  predicate WaitsForReview(s: Store, id: Id) {
    match NewestWaiting(s.tasks)
    case None => false
    case Some(n) => LinkedAt(s.tasks, n, PlanReview(id)) && s.tasks[n].id in s.usablePlans
  }

  /** A restart finds a task waiting for a plan review that was parked. It offers
    * the review exactly when its pause was never taken off disk; once it was,
    * the task still waits and nothing is offered, whether or not the decision
    * got recorded before the process stopped. */
  lemma WaitingPlanIsDroppedIffTaken(ws: seq<World>, ls: seq<Label>, i: nat, j: nat, id: Id)
    requires Run(ws, ls) && i <= j < |ls| && ls[j].Restart?
    requires ReviewParked(ws[i], id) && WaitsForReview(ws[j].store, id)
    ensures var offered := Offered(ws[j + 1].host.slot);
            if exists k | i <= k < j :: TakesReview(ws[k], ls[k], id) then offered == None
            else offered == Some(Pending(id, PlanKind))
  {
    ParkedUntilTaken(ws, ls, i, j, id);
    StepOf(ws, ls, j);
    if exists k | i <= k < j :: TakesReview(ws[k], ls[k], id) {
      var k :| i <= k < j && TakesReview(ws[k], ls[k], id);
      TakingConsumes(ws, ls, k, j, id);
    }
  }

  /** A crash right after the review was taken up leaves its task waiting. */
  lemma TakenReviewLeavesItsTaskWaiting(ws: seq<World>, ls: seq<Label>, i: nat, id: Id)
    requires Run(ws, ls) && i + 1 < |ls| && TakesReview(ws[i], ls[i], id) && ls[i + 1].Restart?
    requires WaitsForReview(ws[i].store, id)
    ensures WaitsForReview(ws[i + 2].store, id) && Offered(ws[i + 2].host.slot) == None
  {
    StepOf(ws, ls, i);
    StepOf(ws, ls, i + 1);
    TakingConsumes(ws, ls, i, i + 1, id);
  }
}
