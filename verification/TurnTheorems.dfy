/** What holds in every run of the worker protocol, whatever the interleaving
  * and wherever the process is stopped and started again.
  */
module TurnTheorems {
  import opened Common
  import opened TurnHost
  import opened DecisionStore
  import opened TurnProtocol
  import opened Runs

  /** `ws[i]` is the world before step `ls[i]`, and `ws[i + 1]` the one after. */
  ghost predicate Run(ws: seq<World>, ls: seq<Label>) {
    && |ws| == |ls| + 1
    && Init(ws[0])
    && forall i | 0 <= i < |ls| :: Step(ws[i], ls[i], ws[i + 1])
  }

  ghost predicate Step(w: World, l: Label, after: World) {
    Enabled(w, l) && after == Apply(w, l)
  }

  /** No step from `i` up to `j` starts the process again. */
  predicate OneProcess(ls: seq<Label>, i: nat, j: nat)
    requires i <= j <= |ls|
  {
    forall k | i <= k < j :: !ls[k].Restart?
  }

  // ---- one job at a time, on its own handles ----

  lemma StepOf(ws: seq<World>, ls: seq<Label>, k: nat)
    requires Run(ws, ls) && k < |ls|
    ensures Enabled(ws[k], ls[k]) && ws[k + 1] == Apply(ws[k], ls[k])
  {
    assert Step(ws[k], ls[k], ws[k + 1]);
  }

  lemma {:induction false} RunKeepsInv(ws: seq<World>, ls: seq<Label>, i: nat)
    requires Run(ws, ls) && i < |ws|
    ensures Inv(ws[i])
  {
    if i == 0 {
      InitHolds(ws[0]);
    } else {
      RunKeepsInv(ws, ls, i - 1);
      assert Step(ws[i - 1], ls[i - 1], ws[i]);
      StepKeepsInv(ws[i - 1], ls[i - 1]);
    }
  }

  /** Jobs handed over whose turn has not settled. */
  function Jobs(w: World): nat {
    (if w.host.channel.Open? then |w.host.channel.queue| else 0)
    + (if w.turn.Received? || w.turn.Turning? || w.turn.Finished? || (w.turn.Dead? && w.turn.lostJob) then 1 else 0)
  }

  /** At most one job is queued or running; until shutdown the reported state
    * says exactly whether one is, and a decision is held exactly while the
    * host waits for it. The turn reads the handles made for its own job, which
    * are the ones `stop` and `note` reach. */
  lemma OneJobOnItsOwnHandles(ws: seq<World>, ls: seq<Label>, i: nat)
    requires Run(ws, ls) && i < |ws|
    ensures Jobs(ws[i]) <= 1
    ensures Alive(ws[i]) ==> (TurnInFlight(ws[i].host.slot.state) <==> Jobs(ws[i]) == 1)
    ensures Alive(ws[i]) ==> (ws[i].host.slot.pending.Some? <==> ws[i].host.slot.state == WaitingForApproval)
    ensures ws[i].turn.Turning? ==>
              && ws[i].turn.held == ws[i].turn.ticket.serial
              && HandlesOf(ws[i], ws[i].turn.held) == ws[i].host.slot.handles
  {
    RunKeepsInv(ws, ls, i);
  }

  /** The arms of `take_turn` that only keep the match total are never taken. */
  lemma TurnArmsAreReal(ws: seq<World>, ls: seq<Label>, i: nat)
    requires Run(ws, ls) && i < |ws| && ws[i].turn.Turning?
    ensures JobOf(ws[i]).DecideJob? ==> JobOf(ws[i]).kind in {CommandKind, PlanKind, RoundBudgetKind}
  {
    RunKeepsInv(ws, ls, i);
  }

  // ---- stopping ----

  /** A step that may set the token of the turn with this serial: a stop
    * accepted while its job is outstanding, or one of the two shutdown
    * sections. */
  predicate CancelsTurn(w: World, l: Label, serial: nat) {
    && w.host.slot.serial == serial
    && ((l == Command(Stop) && Outstanding(w) && Dispatch(w.host, Stop).1.Accepted?)
        || l.ShutdownCancel? || l.MainCancel?)
  }

  /** A pause accepted while the job of this turn is outstanding. */
  predicate AsksToPause(w: World, l: Label, serial: nat) {
    w.host.slot.serial == serial && l == Command(Pause) && Outstanding(w) && Dispatch(w.host, Pause).1.Accepted?
  }

  /** What a step may do to a turn's token and pause flag: a new turn starts
    * with both clear, a set token stays set, and each is set only by a step
    * aimed at that turn. */
  ghost predicate FlagsMove(w: World, l: Label, after: World, serial: nat) {
    var (a, b) := (HandlesOf(w, serial), HandlesOf(after, serial));
    && w.host.slot.serial <= after.host.slot.serial
    && (serial > w.host.slot.serial && serial <= after.host.slot.serial ==> !b.cancelled && !b.paused)
    && (serial <= w.host.slot.serial ==>
          && (a.cancelled ==> b.cancelled)
          && (b.cancelled ==> a.cancelled || CancelsTurn(w, l, serial))
          && (b.paused ==> a.paused || AsksToPause(w, l, serial)))
  }

  lemma CommandMovesFlags(w: World, l: Label, serial: nat)
    requires Inv(w) && Enabled(w, l) && l.Command?
    ensures FlagsMove(w, l, Apply(w, l), serial)
  {
    CommandEffect(w.host, l.command);
    CommandKeepsFlags(w.host, l.command);
    FlagsNeedAcceptance(w.host, l.command);
  }

  lemma ControlMovesFlags(w: World, l: Label, serial: nat)
    requires Inv(w) && Enabled(w, l) && ControlStep(l)
    ensures FlagsMove(w, l, Apply(w, l), serial)
  {
  }

  lemma EngineMovesFlags(w: World, l: Label, serial: nat)
    requires Inv(w) && Enabled(w, l) && EngineStep(l)
    ensures FlagsMove(w, l, Apply(w, l), serial)
  {
    EngineStaysInside(w, l);
  }

  lemma ThreadMovesFlags(w: World, l: Label, serial: nat)
    requires Inv(w) && Enabled(w, l) && TurnStep(l) && !EngineStep(l)
    ensures FlagsMove(w, l, Apply(w, l), serial)
  {
  }

  lemma RestartMovesFlags(w: World, serial: nat)
    requires Inv(w)
    ensures FlagsMove(w, Restart, Boot(w), serial)
  {
  }

  lemma StepMovesFlags(ws: seq<World>, ls: seq<Label>, k: nat, serial: nat)
    requires Run(ws, ls) && k < |ls|
    ensures FlagsMove(ws[k], ls[k], ws[k + 1], serial)
  {
    RunKeepsInv(ws, ls, k);
    StepOf(ws, ls, k);
    if ls[k].Command? { CommandMovesFlags(ws[k], ls[k], serial); }
    else if ControlStep(ls[k]) { ControlMovesFlags(ws[k], ls[k], serial); }
    else if ls[k].Restart? { RestartMovesFlags(ws[k], serial); }
    else if EngineStep(ls[k]) { EngineMovesFlags(ws[k], ls[k], serial); }
    else { ThreadMovesFlags(ws[k], ls[k], serial); }
  }

  /** The turn with this serial was told to stop. */
  predicate Told(w: World, serial: nat) {
    serial <= w.host.slot.serial && HandlesOf(w, serial).cancelled
  }

  predicate AskedToPause(w: World, serial: nat) {
    serial <= w.host.slot.serial && HandlesOf(w, serial).paused
  }

  /** Cancel isolation: the step that set a turn's token is a stop accepted while
    * that very job was outstanding, or one of the shutdown sections. A late stop
    * cannot reach the next turn. */
  lemma CancelIsolation(ws: seq<World>, ls: seq<Label>, i: nat, serial: nat)
    requires Run(ws, ls) && i < |ws|
    requires serial >= ws[0].host.slot.serial && Told(ws[i], serial)
    ensures exists j | 0 <= j < i ::
              CancelsTurn(ws[j], ls[j], serial) && !Told(ws[j], serial) && Told(ws[j + 1], serial)
  {
    var j := BeganAt((w: World) => Told(w, serial), ws, 0, i);
    StepMovesFlags(ws, ls, j, serial);
  }

  /** The step that set the pause flag a turn acts on is a pause accepted while
    * that very job was outstanding: it never carries over to the next one. */
  lemma PauseIsolation(ws: seq<World>, ls: seq<Label>, i: nat, serial: nat)
    requires Run(ws, ls) && i < |ws|
    requires serial >= ws[0].host.slot.serial && AskedToPause(ws[i], serial)
    ensures exists j | 0 <= j < i ::
              AsksToPause(ws[j], ls[j], serial) && !AskedToPause(ws[j], serial) && AskedToPause(ws[j + 1], serial)
  {
    var j := BeganAt((w: World) => AskedToPause(w, serial), ws, 0, i);
    StepMovesFlags(ws, ls, j, serial);
  }

  lemma StepKeepsTold(ws: seq<World>, ls: seq<Label>, k: nat, serial: nat)
    requires Run(ws, ls) && k < |ls| && Told(ws[k], serial)
    ensures Told(ws[k + 1], serial)
  {
    StepMovesFlags(ws, ls, k, serial);
  }

  /** A set token stays set and its handles keep their place, so a turn that was
    * told to stop can never be told otherwise. */
  lemma CancelSticks(ws: seq<World>, ls: seq<Label>, i: nat, j: nat, serial: nat)
    requires Run(ws, ls) && i <= j < |ws| && Told(ws[i], serial)
    ensures Told(ws[j], serial)
  {
    forall k | i <= k < j && Told(ws[k], serial) ensures Told(ws[k + 1], serial) {
      StepKeepsTold(ws, ls, k, serial);
    }
    HoldsLater((w: World) => Told(w, serial), ws, i, j);
  }

  /** A refused command sets no flag. */
  lemma FlagsNeedAcceptance(h: Host, c: ControlCommand)
    requires !c.Shutdown?
    ensures var (after, answer) := Dispatch(h, c);
            after.slot.serial == h.slot.serial && !answer.Accepted? ==> after == h
  {
    if StartJob(c).Some? { StartIsAcceptedIffIdle(h, c); }
    else if AnswersPending(c) { AnswerEffect(h, c); }
  }

  lemma CommandKeepsFlags(h: Host, c: ControlCommand)
    ensures var after := Dispatch(h, c).0;
            after.slot.serial == h.slot.serial && h.slot.handles.cancelled ==> after.slot.handles.cancelled
  {
  }

  /** What `stop`'s caller may rely on: an accepted stop found a job, whose
    * token is set from then on. */
  lemma AcceptedStopReachesTheJob(ws: seq<World>, ls: seq<Label>, i: nat, j: nat)
    requires Run(ws, ls) && i < j < |ws|
    requires ls[i] == Command(Stop) && Dispatch(ws[i].host, Stop).1.Accepted?
    ensures Jobs(ws[i]) == 1 && HandlesOf(ws[j], ws[i].host.slot.serial).cancelled
  {
    RunKeepsInv(ws, ls, i);
    assert Step(ws[i], ls[i], ws[i + 1]);
    CancelSticks(ws, ls, i + 1, j, ws[i].host.slot.serial);
  }

  // ---- shutting down ----

  predicate ShutDownAt(w: World, serial: nat) {
    !Alive(w) && w.host.slot.serial == serial
  }

  lemma CommandKeepsShutDown(w: World, l: Label)
    requires Inv(w) && Enabled(w, l) && l.Command? && !Alive(w)
    ensures ShutDownAt(Apply(w, l), w.host.slot.serial)
  {
    CommandEffect(w.host, l.command);
  }

  lemma StepKeepsShutDown(w: World, l: Label)
    requires Inv(w) && Enabled(w, l) && !l.Command? && !l.Restart? && !EngineStep(l) && !Alive(w)
    ensures ShutDownAt(Apply(w, l), w.host.slot.serial)
  {
  }

  lemma NextKeepsShutDown(ws: seq<World>, ls: seq<Label>, k: nat, serial: nat)
    requires Run(ws, ls) && k < |ls| && !ls[k].Restart? && ShutDownAt(ws[k], serial)
    ensures ShutDownAt(ws[k + 1], serial)
  {
    RunKeepsInv(ws, ls, k);
    StepOf(ws, ls, k);
    if ls[k].Command? { CommandKeepsShutDown(ws[k], ls[k]); }
    else if EngineStep(ls[k]) { EngineStaysInside(ws[k], ls[k]); }
    else { StepKeepsShutDown(ws[k], ls[k]); }
  }

  /** Shutting down is final in a process: no later step leaves the state, and
    * no job is handed over any more. */
  lemma ShutdownIsFinal(ws: seq<World>, ls: seq<Label>, i: nat, j: nat)
    requires Run(ws, ls) && i <= j < |ws| && OneProcess(ls, i, j) && !Alive(ws[i])
    ensures ShutDownAt(ws[j], ws[i].host.slot.serial)
  {
    var serial := ws[i].host.slot.serial;
    forall k | i <= k < j && ShutDownAt(ws[k], serial) ensures ShutDownAt(ws[k + 1], serial) {
      NextKeepsShutDown(ws, ls, k, serial);
    }
    HoldsLater((w: World) => ShutDownAt(w, serial), ws, i, j);
  }

  /** Although shutdown is several lock sections, once a cancel section has run
    * every job still outstanding has its token set. */
  lemma ShutdownCancelsTheJob(ws: seq<World>, ls: seq<Label>, i: nat, j: nat)
    requires Run(ws, ls) && i < j < |ws| && OneProcess(ls, i, j)
    requires ls[i].ShutdownCancel? || ls[i].MainCancel?
    ensures ws[j].host.slot.handles.cancelled
    ensures ws[j].turn.Turning? ==> HandlesOf(ws[j], ws[j].turn.held).cancelled
  {
    RunKeepsInv(ws, ls, i);
    assert Step(ws[i], ls[i], ws[i + 1]);
    RunKeepsInv(ws, ls, i + 1);
    RunKeepsInv(ws, ls, j);
    ShutdownIsFinal(ws, ls, i + 1, j);
    CancelSticks(ws, ls, i + 1, j, ws[i + 1].host.slot.serial);
  }

  // ---- notes ----

  /** A step that starts a turn of its own, or a process of its own: the notes
    * an earlier turn ended without reading go with it. */
  predicate EndsChain(w: World, l: Label) {
    l.Restart? || (l.Command? && Dispatch(w.host, l.command).0.slot.serial != w.host.slot.serial
                   && !AnswersPending(l.command))
  }

  /** Over the whole run: the accepted notes are the ones that left the queue
    * followed by the ones still queued, in order. */
  lemma NotesAreConserved(ws: seq<World>, ls: seq<Label>, i: nat)
    requires Run(ws, ls) && i < |ws|
    ensures ws[i].ledger.accepted == NotesOf(ws[i].ledger.gone) + ws[i].host.slot.handles.notes
  {
    RunKeepsInv(ws, ls, i);
  }

  /** The ledger grew, and only by deliveries. */
  predicate OnlyDelivered(before: Ledger, after: Ledger) {
    && before.accepted <= after.accepted && before.gone <= after.gone
    && forall n | |before.gone| <= n < |after.gone| :: after.gone[n].fate == Delivered
  }

  lemma CommandDelivers(w: World, l: Label)
    requires Inv(w) && Enabled(w, l) && l.Command? && !EndsChain(w, l)
    ensures OnlyDelivered(w.ledger, Apply(w, l).ledger)
  {
    CommandEffect(w.host, l.command);
  }

  lemma StepDelivers(w: World, l: Label)
    requires Inv(w) && Enabled(w, l) && !l.Command? && !l.Restart? && !EngineStep(l)
    ensures OnlyDelivered(w.ledger, Apply(w, l).ledger)
  {
  }

  lemma DeliversOn(a: Ledger, b: Ledger, c: Ledger)
    requires OnlyDelivered(a, b) && OnlyDelivered(b, c)
    ensures OnlyDelivered(a, c)
  {
  }

  lemma NextDelivers(ws: seq<World>, ls: seq<Label>, k: nat, start: Ledger)
    requires Run(ws, ls) && k < |ls| && !EndsChain(ws[k], ls[k]) && OnlyDelivered(start, ws[k].ledger)
    ensures OnlyDelivered(start, ws[k + 1].ledger)
  {
    RunKeepsInv(ws, ls, k);
    StepOf(ws, ls, k);
    if ls[k].Command? { CommandDelivers(ws[k], ls[k]); }
    else if EngineStep(ls[k]) { EngineStaysInside(ws[k], ls[k]); }
    else { StepDelivers(ws[k], ls[k]); }
    DeliversOn(start, ws[k].ledger, ws[k + 1].ledger);
  }

  /** The ledger only grows, and along a chain only by deliveries. */
  lemma ChainOnlyDelivers(ws: seq<World>, ls: seq<Label>, i: nat, j: nat)
    requires Run(ws, ls) && i <= j < |ws|
    requires forall k | i <= k < j :: !EndsChain(ws[k], ls[k])
    ensures OnlyDelivered(ws[i].ledger, ws[j].ledger)
  {
    var start := ws[i].ledger;
    forall k | i <= k < j && OnlyDelivered(start, ws[k].ledger) ensures OnlyDelivered(start, ws[k + 1].ledger) {
      NextDelivers(ws, ls, k, start);
    }
    HoldsLater((w: World) => OnlyDelivered(start, w.ledger), ws, i, j);
  }

  /** Along a chain of turn, approval, decision, turn the notes queued at its
    * start and the ones accepted since are, in order, the ones delivered at
    * boundaries followed by the ones still queued. None is dropped, whether or
    * not a hand-over was refused on the way. */
  lemma ChainDeliversEveryNote(ws: seq<World>, ls: seq<Label>, i: nat, j: nat)
    requires Run(ws, ls) && i <= j < |ws|
    requires forall k | i <= k < j :: !EndsChain(ws[k], ls[k])
    ensures var (before, after) := (ws[i].ledger, ws[j].ledger);
            && OnlyDelivered(before, after)
            && ws[i].host.slot.handles.notes + after.accepted[|before.accepted|..]
               == NotesOf(after.gone[|before.gone|..]) + ws[j].host.slot.handles.notes
  {
    ChainOnlyDelivers(ws, ls, i, j);
    NotesAreConserved(ws, ls, i);
    NotesAreConserved(ws, ls, j);
    SinceThen(ws[i].ledger, ws[j].ledger, ws[i].host.slot.handles.notes, ws[j].host.slot.handles.notes);
  }

  lemma SinceThen(before: Ledger, after: Ledger, queuedThen: seq<Note>, queuedNow: seq<Note>)
    requires before.accepted <= after.accepted && before.gone <= after.gone
    requires before.accepted == NotesOf(before.gone) + queuedThen
    requires after.accepted == NotesOf(after.gone) + queuedNow
    ensures queuedThen + after.accepted[|before.accepted|..] == NotesOf(after.gone[|before.gone|..]) + queuedNow
  {
    var head := NotesOf(before.gone);
    assert NotesOf(after.gone) == head + NotesOf(after.gone[|before.gone|..]);
    assert after.accepted[|head|..] == queuedThen + after.accepted[|before.accepted|..];
    assert after.accepted[|head|..] == NotesOf(after.gone[|before.gone|..]) + queuedNow;
  }

  // ---- decisions ----

  /** The decision this command answered, if it was accepted as an answer. */
  function Answered(w: World, l: Label): Option<Pending> {
    if l.Command? && AnswersPending(l.command) && Dispatch(w.host, l.command).1.Accepted?
    then Offered(w.host.slot) else None
  }

  /** The answer is in the form the decision's kind asks for and names its id. */
  predicate RightForm(c: ControlCommand, p: Pending) {
    match c
    case AnswerQuestion(id, _, _) => p == Pending(id, QuestionKind)
    case Checks(id, decisions) => p == Pending(id, ChecksKind) && decisions.Some?
    case Approve(id, _) => p.id == id && p.kind in {CommandKind, PlanKind, RoundBudgetKind}
    case Reject(id, _) => p.id == id && p.kind in {CommandKind, PlanKind, RoundBudgetKind}
    case _ => false
  }

  /** The job an accepted answer becomes: its own fields and nothing else. */
  function JobFor(c: ControlCommand, p: Pending): TurnJob
    requires RightForm(c, p)
  {
    match c
    case AnswerQuestion(id, answer, selected) => AnswerJob(id, answer, selected)
    case Checks(id, decisions) => ChecksJob(id, decisions.value)
    case Approve(id, budget) => DecideJob(id, p.kind, true, budget)
    case Reject(id, budget) => DecideJob(id, p.kind, false, budget)
  }

  /** A question is answered only by `answer_question`, a check card only by
    * `checks`, anything else only by `approve` and `reject`, and the job the
    * turn thread then receives carries exactly that answer. */
  lemma AnswerIsAcceptedIffItFits(h: Host, c: ControlCommand)
    requires AnswersPending(c)
    ensures Dispatch(h, c).1.Accepted? <==>
            h.channel.Open? && Offered(h.slot).Some? && RightForm(c, Offered(h.slot).value)
    ensures Dispatch(h, c).1.Accepted? ==>
              && Dispatch(h, c).0.channel ==
                 Open(h.channel.queue + [Ticket(JobFor(c, Offered(h.slot).value), h.slot.serial + 1)])
              && Offered(Dispatch(h, c).0.slot) == None
  {
    match c {
      case AnswerQuestion(_, _, _) =>
      case Checks(_, _) =>
      case Approve(_, _) =>
      case Reject(_, _) =>
    }
  }

  /** A turn of its own is started only from an idle worker with a live turn
    * thread; the job is the one asked for, queued last, with clear handles; and
    * a refused start changes nothing unless the turn thread is gone. */
  lemma StartIsAcceptedIffIdle(h: Host, c: ControlCommand)
    requires StartJob(c).Some?
    ensures var (after, answer) := Dispatch(h, c);
            && (answer.Accepted? <==> h.channel.Open? && h.slot.state == Idle)
            && (answer.Accepted? ==>
                  && after.channel == Open(h.channel.queue + [Ticket(StartJob(c).value, h.slot.serial + 1)])
                  && after.slot == Slot(Running, h.slot.serial + 1, Handles(false, false, []), h.slot.pending))
            && (!answer.Accepted? ==> after.slot.state == h.slot.state && after.slot.pending == h.slot.pending)
            && (!answer.Accepted? && !h.channel.Gone? ==> after == h)
  {
  }

  /** Pause, resume, note and stop are accepted exactly while a turn is in
    * flight, and then touch that turn's handles and nothing else; any other
    * command leaves the handles of a turn in flight alone. */
  lemma SteeringIsAcceptedIffInFlight(h: Host, c: ControlCommand)
    requires c.Pause? || c.Resume? || c.QueueNote? || c.Stop?
    ensures var (after, answer) := Dispatch(h, c);
            && (answer.Accepted? <==> TurnInFlight(h.slot.state))
            && (!answer.Accepted? ==> after == h)
            && after == h.(slot := h.slot.(handles := after.slot.handles))
            && (answer.Accepted? ==>
                  var (a, b) := (h.slot.handles, after.slot.handles);
                  && b.cancelled == (a.cancelled || c.Stop?)
                  && b.paused == (if c.Pause? then true else if c.Resume? then false else a.paused)
                  && b.notes == a.notes + (if c.QueueNote? then [c.text]
                                           else if c.Resume? && c.note.Some? then [c.note.value] else []))
  {
  }

  /** A step that puts the decision `id` in front of the user. */
  ghost predicate Offers(w: World, l: Label, id: Id)
    requires Enabled(w, l)
  {
    (l.SettleTurn? || l.Restart?) && var p := Offered(Apply(w, l).host.slot); p.Some? && p.value.id == id
  }

  lemma StepOffers(w: World, l: Label, id: Id)
    requires Inv(w) && Enabled(w, l)
    requires Offered(Apply(w, l).host.slot).Some? && Offered(Apply(w, l).host.slot).value.id == id
    ensures Offers(w, l, id) || Offered(w.host.slot) == Offered(Apply(w, l).host.slot)
  {
    if l.Command? { CommandOffersNothing(w, l); }
    else if EngineStep(l) { EngineStaysInside(w, l); }
    else if !l.SettleTurn? && !l.Restart? { ThreadOffersNothing(w, l); }
  }

  lemma CommandOffersNothing(w: World, l: Label)
    requires Inv(w) && Enabled(w, l) && l.Command?
    ensures Offered(Apply(w, l).host.slot) in {None, Offered(w.host.slot)}
  {
    CommandEffect(w.host, l.command);
  }

  lemma ThreadOffersNothing(w: World, l: Label)
    requires Inv(w) && Enabled(w, l) && !l.Command? && !EngineStep(l) && !l.SettleTurn? && !l.Restart?
    ensures Offered(Apply(w, l).host.slot) in {None, Offered(w.host.slot)}
  {
  }

  /** Once answered, a decision is not offered until a turn settles on it
    * again. */
  lemma {:induction false} NotOfferedInBetween(ws: seq<World>, ls: seq<Label>, i: nat, j: nat, id: Id)
    requires Run(ws, ls) && i < j < |ws|
    requires Answered(ws[i], ls[i]).Some? && Answered(ws[i], ls[i]).value.id == id
    requires forall k | i < k < j :: Step(ws[k], ls[k], ws[k + 1]) ==> !Offers(ws[k], ls[k], id)
    ensures Offered(ws[j].host.slot).None? || Offered(ws[j].host.slot).value.id != id
    decreases j
  {
    assert Step(ws[j - 1], ls[j - 1], ws[j]);
    RunKeepsInv(ws, ls, j - 1);
    if i == j - 1 {
      AnswerIsAcceptedIffItFits(ws[i].host, ls[i].command);
    } else {
      NotOfferedInBetween(ws, ls, i, j - 1, id);
      if Offered(ws[j].host.slot).Some? && Offered(ws[j].host.slot).value.id == id {
        StepOffers(ws[j - 1], ls[j - 1], id);
      }
    }
  }

  /** Each offer of a decision takes at most one answer: between two accepted
    * answers to the same id a turn or a restart has offered it again. */
  lemma OneAnswerPerOffer(ws: seq<World>, ls: seq<Label>, i: nat, j: nat)
    requires Run(ws, ls) && i < j < |ls|
    requires Answered(ws[i], ls[i]).Some? && Answered(ws[j], ls[j]).Some?
    requires Answered(ws[i], ls[i]).value.id == Answered(ws[j], ls[j]).value.id
    ensures exists k | i < k < j :: Step(ws[k], ls[k], ws[k + 1]) && Offers(ws[k], ls[k], Answered(ws[i], ls[i]).value.id)
  {
    var id := Answered(ws[i], ls[i]).value.id;
    if forall k | i < k < j :: Step(ws[k], ls[k], ws[k + 1]) ==> !Offers(ws[k], ls[k], id) {
      NotOfferedInBetween(ws, ls, i, j, id);
    }
  }
}
