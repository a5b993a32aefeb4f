/** The stop escalation talking to the worker of `TurnProtocol`: what the shell
  * may conclude from the answers it gets.
  */
module WorkerStop {
  import opened Common
  import opened TurnHost
  import opened TurnProtocol
  import opened TurnTheorems
  import Stop = StopEscalation

  function StateName(state: WorkerState): string {
    match state
    case Idle => "idle"
    case Running => "running"
    case Paused => "paused"
    case WaitingForApproval => "waiting_for_approval"
    case ShuttingDown => "shutting_down"
  }

  /** The name tells the state. */
  lemma StateNamesDiffer(a: WorkerState, b: WorkerState)
    ensures StateName(a) == StateName(b) <==> a == b
  {
    assert StateName(a)[0] == StateName(b)[0] && |StateName(a)| == |StateName(b)| ==> a == b;
  }

  /** The part of a worker's answer the escalation reads. */
  function ReplyTo(w: World, command: ControlCommand): Stop.Reply {
    match Dispatch(w.host, command).1
    case Accepted => Stop.Reply(true, None)
    case Refused(_) => Stop.Reply(false, None)
    case Snapshot(state, _, _) => Stop.Reply(true, Some(StateName(state)))
  }

  /** To wait, `begin_stop` has read that a turn is in flight and that `stop` was
    * accepted. */
  lemma AwaitingNeedsBothReplies(first: World, second: World, third: Option<Stop.Reply>)
    requires Stop.Begin(Some(ReplyTo(first, Status)), Some(ReplyTo(second, TurnHost.Stop)), third).1 == Stop.AwaitTurnEnd
    ensures TurnInFlight(first.host.slot.state)
    ensures Dispatch(second.host, TurnHost.Stop).1.Accepted?
  {
    StatusSaysTheState(first);
  }

  lemma StatusSaysTheState(w: World)
    ensures ReplyTo(w, Status) == Stop.Reply(true, Some(StateName(w.host.slot.state)))
  {
  }

  /** Waiting for a turn to end means one was told to: when `begin_stop` decides
    * to wait, the worker had a job outstanding and its token is set from then
    * on, whatever happens between the requests and afterwards. */
  lemma AwaitingMeansTheTokenIsSet(ws: seq<World>, ls: seq<Label>, i: nat, j: nat, k: nat, third: Option<Stop.Reply>)
    requires Run(ws, ls) && i < j < k < |ws|
    requires ls[i] == Command(Status) && ls[j] == Command(TurnHost.Stop)
    requires Stop.Begin(Some(ReplyTo(ws[i], Status)), Some(ReplyTo(ws[j], TurnHost.Stop)), third).1 == Stop.AwaitTurnEnd
    ensures Jobs(ws[j]) == 1
    ensures HandlesOf(ws[k], ws[j].host.slot.serial).cancelled
    ensures Alive(ws[i]) && Jobs(ws[i]) == 1
  {
    AwaitingNeedsBothReplies(ws[i], ws[j], third);
    RunKeepsInv(ws, ls, i);
    AcceptedStopReachesTheJob(ws, ls, j, k);
  }

  /** Going straight to `shutdown` on the worker's own word means a decision is
    * waiting, which `stop` cannot end; doing nothing means no turn ran. */
  lemma FirstReplyDecides(ws: seq<World>, ls: seq<Label>, i: nat, second: Option<Stop.Reply>, third: Option<Stop.Reply>)
    requires Run(ws, ls) && i < |ls| && ls[i] == Command(Status)
    ensures var next := Stop.Begin(Some(ReplyTo(ws[i], Status)), second, third).1;
            && (ws[i].host.slot.state == WaitingForApproval ==> next == Stop.SendShutdown && ws[i].host.slot.pending.Some?)
            && (Alive(ws[i]) && Jobs(ws[i]) == 0 && ws[i].host.slot.pending.None? ==> next == Stop.NothingFollows)
  {
    RunKeepsInv(ws, ls, i);
  }

  /** A poll ends the wait exactly when the worker is idle or shutting down. */
  lemma PollEndsIff(w: World)
    ensures Stop.SawTurnEnd(Some(ReplyTo(w, Status))) <==> w.host.slot.state in {Idle, ShuttingDown}
  {
    StatusSaysTheState(w);
  }

  /** A poll that ends the wait is right about the turn: an idle worker has no
    * job outstanding, and one that is shutting down takes no more. */
  lemma EndedPollIsRight(ws: seq<World>, ls: seq<Label>, i: nat)
    requires Run(ws, ls) && i < |ls| && ls[i] == Command(Status)
    requires Stop.SawTurnEnd(Some(ReplyTo(ws[i], Status)))
    ensures Jobs(ws[i]) == 0 || !Alive(ws[i])
    ensures !Alive(ws[i]) ==> forall job :: Start(ws[i].host, job).1.Refused?
  {
    RunKeepsInv(ws, ls, i);
  }
}
