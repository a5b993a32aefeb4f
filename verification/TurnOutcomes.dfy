/** What a finished turn leaves for the user, and what a held one reports: told
  * by the commands the worker then accepts, over every run.
  */
module TurnOutcomes {
  import opened Common
  import opened TurnHost
  import opened TurnProtocol
  import opened TurnTheorems
  import opened Runs

  // ---- what a finished turn waits for ----

  /** The turn reported this proposal, and nothing that goes before it. */
  predicate Reports(r: TurnResult, kind: DecisionKind, id: Id) {
    && r.waiting
    && (match kind
        case QuestionKind => r.question == Some(id)
        case ChecksKind => r.question.None? && r.checks == Some(id)
        case PlanKind => r.question.None? && r.checks.None? && r.plan == Some(id)
        case RoundBudgetKind => r.question.None? && r.checks.None? && r.plan.None? && r.roundBudget == Some(id)
        case CommandKind =>
          r.question.None? && r.checks.None? && r.plan.None? && r.roundBudget.None? && r.command == Some(id))
  }

  /** A turn that ended waiting for one of the five. A patch or a provider
    * fallback is answered elsewhere. */
  predicate ReportsAny(r: TurnResult) {
    r.waiting && (r.question.Some? || r.checks.Some? || r.plan.Some? || r.roundBudget.Some? || r.command.Some?)
  }

  /** The command answers what the turn reported, and asks for this job. */
  predicate AnswersResult(r: TurnResult, c: ControlCommand, job: TurnJob) {
    match c
    case AnswerQuestion(id, answer, option) => Reports(r, QuestionKind, id) && job == AnswerJob(id, answer, option)
    case Checks(id, decisions) =>
      Reports(r, ChecksKind, id) && decisions.Some? && job == ChecksJob(id, decisions.value)
    case Approve(id, budget) => Decides(r, id, true, budget, job)
    case Reject(id, budget) => Decides(r, id, false, budget, job)
    case _ => false
  }

  predicate Decides(r: TurnResult, id: Id, approved: bool, budget: Option<Budget>, job: TurnJob) {
    job.DecideJob? && job == DecideJob(id, job.kind, approved, budget)
    && job.kind in {PlanKind, RoundBudgetKind, CommandKind} && Reports(r, job.kind, id)
  }

  /** The command is accepted and the last job it leaves in the channel is this
    * one. */
  predicate Queues(h: Host, c: ControlCommand, job: TurnJob) {
    var (after, answer) := Dispatch(h, c);
    answer.Accepted? && after.channel.Open? && after.channel.queue != []
    && after.channel.queue[|after.channel.queue| - 1].job == job
  }

  /** The turn that reported `r` has just been settled in a worker that is not
    * shutting down. */
  predicate JustSettled(w: World, l: Label, r: TurnResult) {
    l.SettleTurn? && Alive(w) && w.turn.Finished? && w.turn.outcome == Done(r)
  }

  /** After a turn, an answering command is accepted, and becomes this job,
    * exactly when it answers what the turn reported first in the order question,
    * checks, plan, round budget, command. */
  lemma TurnIsAnsweredAsReported(ws: seq<World>, ls: seq<Label>, i: nat, r: TurnResult, c: ControlCommand, job: TurnJob)
    requires Run(ws, ls) && i < |ls| && JustSettled(ws[i], ls[i], r) && AnswersPending(c)
    ensures Queues(ws[i + 1].host, c, job) <==> AnswersResult(r, c, job)
  {
    SettledHost(ws, ls, i, r);
    AnswerIsAcceptedIffItFits(ws[i + 1].host, c);
  }

  /** The settled host waits with the reported decision, or is idle. */
  lemma SettledHost(ws: seq<World>, ls: seq<Label>, i: nat, r: TurnResult)
    requires Run(ws, ls) && i < |ls| && JustSettled(ws[i], ls[i], r)
    ensures ws[i + 1].host.channel.Open?
    ensures forall id, kind :: Offered(ws[i + 1].host.slot) == Some(Pending(id, kind)) <==> Reports(r, kind, id)
    ensures ws[i + 1].host.slot.state == if ReportsAny(r) then WaitingForApproval else Idle
  {
    RunKeepsInv(ws, ls, i);
    StepOf(ws, ls, i);
    WaitsForReported(r);
  }

  /** The first proposal reported is what the worker waits for. */
  lemma WaitsForReported(r: TurnResult)
    ensures forall id, kind :: PendingDecision(r) == Some(Pending(id, kind)) <==> Reports(r, kind, id)
    ensures PendingDecision(r).Some? <==> ReportsAny(r)
  {
  }

  /** A new turn may be started exactly when the last one left nothing to
    * answer on the socket. */
  lemma NextTurnMayStartIff(ws: seq<World>, ls: seq<Label>, i: nat, r: TurnResult, text: string)
    requires Run(ws, ls) && i < |ls| && JustSettled(ws[i], ls[i], r)
    ensures Dispatch(ws[i + 1].host, Message(text)).1.Accepted? <==> !ReportsAny(r)
  {
    SettledHost(ws, ls, i, r);
  }

  /** Why a turn cannot start: one is in flight, one waits for a decision, or the
    * worker is going away. A refused start says which. */
  function WhyNot(state: WorkerState): nat {
    match state
    case Running => 1
    case Paused => 1
    case WaitingForApproval => 2
    case ShuttingDown => 3
    case Idle => 0
  }

  lemma RefusedStartTellsWhy(h: Host, g: Host, c: ControlCommand, d: ControlCommand)
    requires StartJob(c).Some? && StartJob(d).Some? && h.slot.state != Idle && g.slot.state != Idle
    ensures Dispatch(h, c).1.Refused? && Dispatch(g, d).1.Refused?
    ensures Dispatch(h, c).1 == Dispatch(g, d).1 <==> WhyNot(h.slot.state) == WhyNot(g.slot.state)
  {
    assert StartJob(c).Some? ==> Dispatch(h, c) == Start(h, StartJob(c).value);
    assert StartJob(d).Some? ==> Dispatch(g, d) == Start(g, StartJob(d).value);
    assert |"a turn is already running"| == 25 && |"the worker is shutting down"| == 27;
    assert |"the turn is waiting for approval; approve or reject it"| == 54;
  }

  /** The status answer shows a waiting question under its own key, any other
    * waiting decision as a proposal, and neither otherwise. */
  lemma StatusShowsWhatWaits(ws: seq<World>, ls: seq<Label>, i: nat, r: TurnResult)
    requires Run(ws, ls) && i < |ls| && JustSettled(ws[i], ls[i], r)
    ensures var status := Dispatch(ws[i + 1].host, Status).1;
            && status.Snapshot?
            && status.state == (if ReportsAny(r) then WaitingForApproval else Idle)
            && (forall id :: status.questionId == Some(id) <==> Reports(r, QuestionKind, id))
            && (forall id :: status.proposalId == Some(id) <==>
                  exists kind :: kind != QuestionKind && Reports(r, kind, id))
  {
    SettledHost(ws, ls, i, r);
    var p := Offered(ws[i + 1].host.slot);
    if p.Some? { assert Reports(r, p.value.kind, p.value.id); }
  }

  // ---- commands of several sections ----

  /** The sections of `resume` add up to the command, when it is accepted, and a
    * refused one stops after the first. */
  lemma ResumeInSections(w: World, note: Option<Note>)
    requires Enabled(w, ResumeQueue(note))
    ensures var (first, whole) := (Apply(w, ResumeQueue(note)), Dispatch(w.host, Resume(note)));
            if whole.1.Accepted? then
              Enabled(first, ResumeRelease) && Apply(first, ResumeRelease).host == whole.0
              && Apply(first, ResumeRelease).control == Serving
            else first == w && whole.0 == w.host
  {
  }

  /** So do those of `shutdown`. */
  lemma ShutdownInSections(w: World)
    requires Enabled(w, ShutdownState)
    ensures var first := Apply(w, ShutdownState);
            && Enabled(first, ShutdownCancel)
            && var second := Apply(first, ShutdownCancel);
               && second.host == Dispatch(w.host, Shutdown).0
               && Enabled(second, ShutdownTrigger) && Apply(second, ShutdownTrigger).triggered
               && Apply(second, ShutdownTrigger).host == second.host
  {
  }

  // ---- what ends the process ----

  lemma StepTriggers(w: World, l: Label)
    requires Enabled(w, l)
    ensures Apply(w, l).triggered <==> !l.Restart? && (w.triggered || l.LifelineEof? || l.ShutdownTrigger?)
  {
    if EngineStep(l) { EngineStaysInside(w, l); }
  }

  /** The end of the lifeline, or a `shutdown` that ran through, in the process
    * that is running at `j`. */
  predicate TriggeredBy(ls: seq<Label>, i: nat, j: nat) {
    i < j <= |ls| && (ls[i].LifelineEof? || ls[i].ShutdownTrigger?) && OneProcess(ls, i, j)
  }

  lemma {:induction false} TriggeredIff(ws: seq<World>, ls: seq<Label>, j: nat)
    requires Run(ws, ls) && j < |ws|
    ensures ws[j].triggered <==> exists i: nat :: TriggeredBy(ls, i, j)
    decreases j
  {
    if j > 0 {
      var k: nat := j - 1;
      StepOf(ws, ls, k);
      StepTriggers(ws[k], ls[k]);
      TriggeredIff(ws, ls, k);
      if ws[k].triggered && ws[j].triggered {
        var i: nat :| TriggeredBy(ls, i, k);
        assert TriggeredBy(ls, i, j);
      } else if ws[j].triggered {
        assert TriggeredBy(ls, k, j);
      }
      if exists i: nat :: TriggeredBy(ls, i, j) {
        var i: nat :| TriggeredBy(ls, i, j);
        assert i < k ==> TriggeredBy(ls, i, k);
      }
    }
  }

  /** The main thread may begin to shut down exactly once the lifeline ended or a
    * `shutdown` ran through in this very process, whatever the other threads
    * do. */
  lemma MainShutsDownIffTriggered(ws: seq<World>, ls: seq<Label>, j: nat)
    requires Run(ws, ls) && j < |ws| && ws[j].main == Waiting && LockFree(ws[j])
    ensures Enabled(ws[j], MainState) <==> exists i: nat :: TriggeredBy(ls, i, j)
  {
    TriggeredIff(ws, ls, j);
  }

  // ---- what a held turn reports ----

  /** Held at a boundary: it reported the pause and has not reported the end of
    * it. */
  predicate Held(turn: TurnPos) {
    turn.Turning? && (turn.phase.Holding? || turn.phase.ResumeSeen?)
  }

  /** While the turn thread lives, a held turn shows as paused; any other shows
    * as paused only when it was told to stop while held. */
  predicate HoldShows(w: World) {
    Alive(w) && !w.turn.Dead? ==>
      && (Held(w.turn) ==> w.host.slot.state == Paused)
      && (w.host.slot.state == Paused ==>
            Held(w.turn) || ((w.turn.Turning? || w.turn.Finished?) && w.host.slot.handles.cancelled))
  }

  lemma CommandKeepsHold(w: World, l: Label)
    requires Inv(w) && Enabled(w, l) && l.Command? && HoldShows(w)
    ensures HoldShows(Apply(w, l))
  {
    CommandEffect(w.host, l.command);
    CommandKeepsFlags(w.host, l.command);
  }

  lemma ControlKeepsHold(w: World, l: Label)
    requires Inv(w) && Enabled(w, l) && ControlStep(l) && HoldShows(w)
    ensures HoldShows(Apply(w, l))
  {
  }

  /** The engine's own steps, apart from the ones that touch the store. */
  lemma EngineKeepsHold(w: World, l: Label)
    requires Inv(w) && Enabled(w, l) && EngineStep(l) && HoldShows(w)
    ensures HoldShows(Apply(w, l))
  {
    EngineStaysInside(w, l);
    EngineHolds(w, l);
  }

  /** No engine step starts a hold, and only being told to stop or let go ends
    * one. */
  lemma EngineHolds(w: World, l: Label)
    requires Enabled(w, l) && EngineStep(l) && w.turn.Turning?
    ensures Held(Apply(w, l).turn) ==> Held(w.turn)
    ensures Held(w.turn) && !Held(Apply(w, l).turn) ==> HandlesOf(w, w.turn.held).cancelled
  {
    if ReadsStore(l) { ReadHolds(w, l); }
    else if Asks(l) { AskHolds(w, l); }
    else { AnswerHolds(w, l); }
  }

  lemma ReadHolds(w: World, l: Label)
    requires Enabled(w, l) && EngineStep(l) && ReadsStore(l) && w.turn.Turning?
    ensures Held(Apply(w, l).turn) ==> Held(w.turn)
    ensures Held(w.turn) && !Held(Apply(w, l).turn) ==> HandlesOf(w, w.turn.held).cancelled
  {
  }

  lemma AskHolds(w: World, l: Label)
    requires Enabled(w, l) && Asks(l)
    ensures !Held(w.turn) && !Held(Apply(w, l).turn)
  {
  }

  lemma AnswerHolds(w: World, l: Label)
    requires Enabled(w, l) && (Answers(l) || l.EngineWrites?)
    ensures !Held(w.turn) && !Held(Apply(w, l).turn)
  {
  }

  lemma ThreadKeepsHold(w: World, l: Label)
    requires Inv(w) && Enabled(w, l) && !l.Command? && !ControlStep(l) && !EngineStep(l) && !l.Restart? && HoldShows(w)
    ensures HoldShows(Apply(w, l))
  {
  }

  lemma StepKeepsHold(w: World, l: Label)
    requires Inv(w) && Enabled(w, l) && HoldShows(w)
    ensures HoldShows(Apply(w, l))
  {
    if l.Command? { CommandKeepsHold(w, l); }
    else if ControlStep(l) { ControlKeepsHold(w, l); }
    else if EngineStep(l) { EngineKeepsHold(w, l); }
    else if !l.Restart? { ThreadKeepsHold(w, l); }
  }

  /** In every run a held turn shows as paused, and nothing else does but a turn
    * that was told to stop while it was held. */
  lemma PausedIsWhatIsHeld(ws: seq<World>, ls: seq<Label>, i: nat)
    requires Run(ws, ls) && i < |ws|
    ensures HoldShows(ws[i])
  {
    forall k | 0 <= k < i && HoldShows(ws[k]) ensures HoldShows(ws[k + 1]) {
      RunKeepsInv(ws, ls, k);
      StepOf(ws, ls, k);
      StepKeepsHold(ws[k], ls[k]);
    }
    HoldsLater((w: World) => HoldShows(w), ws, 0, i);
  }
}
