/** The mutable worker host: the mutex-guarded slot, the shared cancel flag and
  * steering queue it points at, and the sending end of the job channel
  * (crates/desktop-shell/src/worker.rs, crates/workspace-engine/src/steering.rs
  * and cancel.rs). Each method is one command or one lock-held section, proved
  * against the value-level function of the same name in `TurnHost`.
  */
module WorkerHosts {
  import opened Common
  import T = TurnHost

  /** A stop flag shared by whoever holds a handle on the turn. */
  class CancelToken {
    var cancelled: bool

    constructor ()
      ensures !cancelled
    {
      cancelled := false;
    }

    method Cancel()
      modifies this
      ensures cancelled
    {
      cancelled := true;
    }
  }

  /** The pause request and the queued notes of one turn, oldest note first. */
  class TurnSteering {
    var paused: bool
    var notes: seq<T.Note>

    constructor ()
      ensures !paused && notes == []
    {
      paused := false;
      notes := [];
    }

    method Pause()
      modifies this
      ensures paused && notes == old(notes)
    {
      paused := true;
    }

    method Resume()
      modifies this
      ensures !paused && notes == old(notes)
    {
      paused := false;
    }

    method QueueNote(text: T.Note)
      modifies this
      ensures notes == old(notes) + [text] && paused == old(paused)
    {
      notes := notes + [text];
    }

    method QueueAll(carried: seq<T.Note>)
      modifies this
      ensures notes == old(notes) + carried && paused == old(paused)
    {
      for i := 0 to |carried|
        invariant notes == old(notes) + carried[..i] && paused == old(paused)
      {
        QueueNote(carried[i]);
      }
      assert carried[..|carried|] == carried;
    }

    method DrainNotes() returns (drained: seq<T.Note>)
      modifies this
      ensures drained == old(notes) && notes == [] && paused == old(paused)
    {
      drained := notes;
      notes := [];
    }
  }

  class ShutdownSignal {
    var requested: bool

    constructor ()
      ensures !requested
    {
      requested := false;
    }

    method Trigger()
      modifies this
      ensures requested
    {
      requested := true;
    }
  }

  class WorkerHost {
    var state: T.WorkerState
    var cancel: CancelToken
    var steering: TurnSteering
    var pending: Option<T.Pending>
    var channel: T.Channel
    /** Numbers the handle pairs, so that a ticket can name the one made for it. */
    var serial: nat
    const shutdown: ShutdownSignal

    constructor (shutdown: ShutdownSignal)
      ensures View() == T.NEW_HOST && this.shutdown == shutdown
      ensures fresh(cancel) && fresh(steering)
    {
      this.shutdown := shutdown;
      state := T.Idle;
      cancel := new CancelToken();
      steering := new TurnSteering();
      pending := None;
      channel := T.NoTurns;
      serial := 0;
    }

    /** The host as the value the protocol reasons about. */
    ghost function View(): T.Host
      reads this, cancel, steering
    {
      T.Host(
        T.Slot(state, serial, T.Handles(cancel.cancelled, steering.paused, steering.notes), pending),
        channel)
    }

    method SetState(next: T.WorkerState)
      modifies this`state
      ensures View() == T.WithState(old(View()), next)
    {
      state := next;
    }

    method CancelTurn()
      modifies cancel
      ensures View() == T.Cancelled(old(View()))
    {
      cancel.Cancel();
    }

    /** What the turn thread clones when it starts a job. */
    method TurnHandles() returns (c: CancelToken, s: TurnSteering)
      ensures c == cancel && s == steering
    {
      c, s := cancel, steering;
    }

    method SetPaused(paused: bool)
      modifies this`state
      ensures View() == T.SetPaused(old(View()), paused)
    {
      if state == T.Running || state == T.Paused {
        state := if paused then T.Paused else T.Running;
      }
    }

    method Settle(decision: Option<T.Pending>)
      modifies this`state, this`pending
      ensures View() == T.Settle(old(View()), decision)
    {
      if state == T.ShuttingDown {
        return;
      }
      state := if decision.Some? then T.WaitingForApproval else T.Idle;
      pending := decision;
    }

    /** The notes a resumed turn takes along, drained from the queue. */
    method CarriedNotes(job: T.TurnJob) returns (carried: seq<T.Note>)
      modifies steering
      ensures carried == if T.ResumesTurn(job) then old(steering.notes) else []
      ensures steering.notes == if T.ResumesTurn(job) then [] else old(steering.notes)
      ensures steering.paused == old(steering.paused)
    {
      carried := [];
      match job {
        case DecideJob(_, _, _, _) => carried := steering.DrainNotes();
        case ChecksJob(_, _) => carried := steering.DrainNotes();
        case AnswerJob(_, _, _) => carried := steering.DrainNotes();
        case _ =>
      }
    }

    /** Gives the turn thread a job with a fresh cancel token and steering. The
      * replaced objects are let go of: the old token is not written, and the
      * old queue keeps its notes unless the job carried them over. */
    method HandOver(job: T.TurnJob) returns (answer: T.Answer)
      modifies this, steering
      ensures (View(), answer) == T.HandOver(old(View()), job)
      ensures if serial == old(serial) then cancel == old(cancel) && steering == old(steering)
              else fresh(cancel) && fresh(steering)
      ensures old(steering).notes == if serial != old(serial) && T.ResumesTurn(job) then [] else old(steering.notes)
      ensures old(steering).paused == old(steering.paused)
    {
      if channel.NoTurns? {
        return T.Refused("this worker hosts no turns");
      }
      var carried := CarriedNotes(job);
      cancel := new CancelToken();
      steering := new TurnSteering();
      serial := serial + 1;
      steering.QueueAll(carried);
      assert steering.notes == carried;
      var previous := state;
      state := T.Running;
      if channel.Gone? {
        state := previous;
        return T.Refused("the worker's turn thread has stopped");
      }
      channel := T.Open(channel.queue + [T.Ticket(job, serial)]);
      answer := T.Accepted;
    }

    method Start(job: T.TurnJob) returns (answer: T.Answer)
      modifies this, steering
      ensures (View(), answer) == T.Start(old(View()), job)
    {
      match state {
        case Idle => answer := HandOver(job);
        case Running => answer := T.Refused("a turn is already running");
        case Paused => answer := T.Refused("a turn is already running");
        case WaitingForApproval =>
          answer := T.Refused("the turn is waiting for approval; approve or reject it");
        case ShuttingDown => answer := T.Refused("the worker is shutting down");
      }
    }

    method Decide(id: T.Id, approved: bool, budget: Option<T.Budget>) returns (answer: T.Answer)
      modifies this, steering
      ensures (View(), answer) == T.Decide(old(View()), id, approved, budget)
    {
      if !(pending.Some? && state == T.WaitingForApproval && pending.value.id == id) {
        return T.Refused("no approval with that id is pending");
      }
      var kind := pending.value.kind;
      if kind == T.ChecksKind {
        return T.Refused("a check card is answered with `checks`");
      }
      if kind == T.QuestionKind {
        return T.Refused("a question is answered with `answer_question`");
      }
      answer := HandOver(T.DecideJob(id, kind, approved, budget));
      if answer.Accepted? {
        pending := None;
      }
    }

    method AnswerQuestion(id: T.Id, text: string, selected: Option<nat>) returns (answer: T.Answer)
      modifies this, steering
      ensures (View(), answer) == T.AnswerPending(old(View()), id, text, selected)
    {
      if pending.None? || state != T.WaitingForApproval {
        return T.Refused("no question with that id is pending");
      }
      if !(pending.value.kind == T.QuestionKind && pending.value.id == id) {
        return T.Refused("that id is not a pending question");
      }
      answer := HandOver(T.AnswerJob(id, text, selected));
      if answer.Accepted? {
        pending := None;
      }
    }

    method DecideChecks(id: T.Id, decisions: Option<seq<(string, bool)>>) returns (answer: T.Answer)
      modifies this, steering
      ensures (View(), answer) == T.DecideChecks(old(View()), id, decisions)
    {
      if !(pending.Some? && state == T.WaitingForApproval
           && pending.value.kind == T.ChecksKind && pending.value.id == id) {
        return T.Refused("no check card with that id is pending");
      }
      if decisions.None? {
        return T.Refused("the decisions are not a list of checks");
      }
      answer := HandOver(T.ChecksJob(id, decisions.value));
      if answer.Accepted? {
        pending := None;
      }
    }

    /** The guard every steering command shares. */
    method SteerGuard() returns (answer: T.Answer)
      ensures answer == T.Steer(View(), View().slot.handles).1
    {
      match state {
        case Running => answer := T.Accepted;
        case Paused => answer := T.Accepted;
        case WaitingForApproval =>
          answer := T.Refused("the turn is waiting for approval; approve or reject it");
        case Idle => answer := T.Refused("no turn is running");
        case ShuttingDown => answer := T.Refused("the worker is shutting down");
      }
    }

    method TakeSnapshot() returns (answer: T.Answer)
      ensures answer == T.TakeSnapshot(View().slot)
    {
      answer := T.Snapshot(state, None, None);
      if state == T.WaitingForApproval && pending.Some? {
        if pending.value.kind == T.QuestionKind {
          answer := T.Snapshot(state, Some(pending.value.id), None);
        } else {
          answer := T.Snapshot(state, None, Some(pending.value.id));
        }
      }
    }

    /** Answers one command. `close` says whether to close the connection. */
    method Dispatch(command: T.ControlCommand) returns (answer: T.Answer, close: bool)
      modifies this, cancel, steering, shutdown
      ensures (View(), answer) == T.Dispatch(old(View()), command)
      ensures close == command.Shutdown?
      ensures shutdown.requested == (old(shutdown.requested) || command.Shutdown?)
    {
      close := false;
      match command {
        case Status => answer := TakeSnapshot();
        case Shutdown =>
          SetState(T.ShuttingDown);
          CancelTurn();
          shutdown.Trigger();
          answer, close := T.Accepted, true;
        case Message(text) => answer := Start(T.MessageJob(text));
        case Approve(id, budget) => answer := Decide(id, true, budget);
        case Reject(id, budget) => answer := Decide(id, false, budget);
        case AnswerQuestion(id, text, selected) => answer := AnswerQuestion(id, text, selected);
        case Verify => answer := Start(T.VerifyJob);
        case ContinueRepair => answer := Start(T.ContinueRepairJob);
        case ContinueTask(id, note) => answer := Start(T.ContinueTaskJob(id, note));
        case Checks(id, decisions) => answer := DecideChecks(id, decisions);
        case Pause =>
          answer := SteerGuard();
          if answer.Accepted? { steering.Pause(); }
        case Resume(note) =>
          answer := SteerGuard();
          if answer.Accepted? {
            if note.Some? { steering.QueueNote(note.value); }
            steering.Resume();
          }
        case QueueNote(text) =>
          answer := SteerGuard();
          if answer.Accepted? { steering.QueueNote(text); }
        case Stop =>
          answer := SteerGuard();
          if answer.Accepted? { cancel.Cancel(); }
      }
    }
  }
}
