/** Stopping a worker from the shell: `begin_stop` and `finish_stop` of
  * crates/desktop-shell/src/workers.rs, against a worker that may answer
  * anything and a clock that may run at any pace.
  */
module StopEscalation {
  import opened Common

  /** The two fields of an answer the escalation looks at. */
  datatype Reply = Reply(ok: bool, state: Option<string>)

  datatype StopNext = NothingFollows | AwaitTurnEnd | SendShutdown

  datatype StopOutcome = NothingDone | TurnEnded | ExitedAfterShutdown | Terminated

  datatype Timeouts = Timeouts(stopToShutdown: nat, shutdownToSigterm: nat, poll: nat)

  /** What the escalation did and saw, in order. */
  datatype Event =
    | Sent(command: string, reply: Option<Reply>)
    | Looked(exited: bool)
    | Read(now: nat)
    | Signalled

  /** A worker and a clock: `replies`, `exits` and `delays` fix what the n-th
    * interaction would see and how long it would take. */
  class StopTarget {
    const replies: nat -> Option<Reply>
    const exits: nat -> bool
    const delays: nat -> nat
    var step: nat
    var clock: nat
    ghost var events: seq<Event>

    constructor (replies: nat -> Option<Reply>, exits: nat -> bool, delays: nat -> nat, clock: nat)
      ensures this.replies == replies && this.exits == exits && this.delays == delays
      ensures this.clock == clock && step == 0 && events == []
    {
      this.replies, this.exits, this.delays, this.clock := replies, exits, delays, clock;
      step, events := 0, [];
    }

    method Send(command: string) returns (reply: Option<Reply>)
      modifies this
      ensures reply == replies(old(step)) && step == old(step) + 1 && clock >= old(clock)
      ensures events == old(events) + [Sent(command, reply)]
    {
      reply := replies(step);
      clock := clock + delays(step);
      step := step + 1;
      events := events + [Sent(command, reply)];
    }

    method HasExited() returns (exited: bool)
      modifies this
      ensures exited == exits(old(step)) && step == old(step) + 1
      ensures clock >= old(clock) && events == old(events) + [Looked(exited)]
    {
      exited := exits(step);
      clock := clock + delays(step);
      step := step + 1;
      events := events + [Looked(exited)];
    }

    method Now() returns (now: nat)
      modifies this`events
      ensures now == clock && events == old(events) + [Read(now)]
    {
      now := clock;
      events := events + [Read(now)];
    }

    /** A sleep takes some time, however short the interval. */
    method Sleep(poll: nat)
      modifies this`clock, this`step
      ensures clock > old(clock) && clock >= old(clock) + poll
    {
      clock := clock + poll + delays(step) + 1;
      step := step + 1;
    }

    method Terminate()
      modifies this`events
      ensures events == old(events) + [Signalled]
    {
      events := events + [Signalled];
    }
  }

  const NO_ANSWER := Reply(false, None)
  const ESCALATED := Reply(true, None)

  predicate InState(reply: Option<Reply>, states: set<string>) {
    reply.Some? && reply.value.state.Some? && reply.value.state.value in states
  }

  /** The answer a stop relays and what follows it, from the replies to its
    * first three requests; later ones are not sent when they are not needed. */
  function Begin(first: Option<Reply>, second: Option<Reply>, third: Option<Reply>): (Reply, StopNext) {
    if first.None? then (NO_ANSWER, SendShutdown)
    else if InState(first, {"waiting_for_approval"}) then (ESCALATED, SendShutdown)
    else if InState(first, {"running", "paused"}) then
      if second.None? then (NO_ANSWER, SendShutdown)
      else if second.value.ok then (second.value, AwaitTurnEnd)
      else (second.value, if InState(third, {"waiting_for_approval"}) then SendShutdown else NothingFollows)
    else (if second.Some? then second.value else NO_ANSWER, NothingFollows)
  }

  /** The requests `Begin` is based on. */
  function BeginEvents(first: Option<Reply>, second: Option<Reply>, third: Option<Reply>): seq<Event> {
    if first.None? || InState(first, {"waiting_for_approval"}) then [Sent("status", first)]
    else if InState(first, {"running", "paused"}) && second.Some? && !second.value.ok then
      [Sent("status", first), Sent("stop", second), Sent("status", third)]
    else [Sent("status", first), Sent("stop", second)]
  }

  method BeginStop(target: StopTarget) returns (answer: Reply, next: StopNext)
    modifies target
    ensures var (a, b, c) := (target.replies(old(target.step)), target.replies(old(target.step) + 1), target.replies(old(target.step) + 2));
            (answer, next) == Begin(a, b, c) && target.events == old(target.events) + BeginEvents(a, b, c)
  {
    var status := target.Send("status");
    if status.None? {
      return NO_ANSWER, SendShutdown;
    }
    if InState(status, {"waiting_for_approval"}) {
      return ESCALATED, SendShutdown;
    }
    if InState(status, {"running", "paused"}) {
      var stopped := target.Send("stop");
      if stopped.None? {
        return NO_ANSWER, SendShutdown;
      }
      if stopped.value.ok {
        return stopped.value, AwaitTurnEnd;
      }
      var again := target.Send("status");
      return stopped.value, if InState(again, {"waiting_for_approval"}) then SendShutdown else NothingFollows;
    }
    var refused := target.Send("stop");
    return if refused.Some? then refused.value else NO_ANSWER, NothingFollows;
  }

  // ---- the waiting half, as an automaton over what it does and sees ----

  datatype Stage =
    | AwaitStart
    | AwaitLook(deadline: nat)
    | AwaitStatus(deadline: nat)
    | AwaitClock(deadline: nat)
    | ShutdownDue
    | GraceStart
    | GraceLook(deadline: nat)
    | GraceClock(deadline: nat)
    | SignalDue
    | Final(outcome: StopOutcome)
    | Wrong

  predicate SawTurnEnd(reply: Option<Reply>) {
    InState(reply, {"idle", "shutting_down"})
  }

  function StartStage(next: StopNext): Stage {
    match next
    case NothingFollows => Final(NothingDone)
    case AwaitTurnEnd => AwaitStart
    case SendShutdown => ShutdownDue
  }

  function Advance(t: Timeouts, stage: Stage, e: Event): Stage {
    match (stage, e)
    case (AwaitStart, Read(now)) => AwaitLook(now + t.stopToShutdown)
    case (AwaitLook(d), Looked(exited)) => if exited then Final(TurnEnded) else AwaitStatus(d)
    case (AwaitStatus(d), Sent(command, reply)) =>
      if command != "status" then Wrong else if SawTurnEnd(reply) then Final(TurnEnded) else AwaitClock(d)
    case (AwaitClock(d), Read(now)) => if now >= d then ShutdownDue else AwaitLook(d)
    case (ShutdownDue, Sent(command, _)) => if command == "shutdown" then GraceStart else Wrong
    case (GraceStart, Read(now)) => GraceLook(now + t.shutdownToSigterm)
    case (GraceLook(d), Looked(exited)) => if exited then Final(ExitedAfterShutdown) else GraceClock(d)
    case (GraceClock(d), Read(now)) => if now >= d then SignalDue else GraceLook(d)
    case (SignalDue, Signalled) => Final(Terminated)
    case _ => Wrong
  }

  function Follow(t: Timeouts, stage: Stage, events: seq<Event>): Stage {
    if events == [] then stage else Advance(t, Follow(t, stage, events[..|events| - 1]), events[|events| - 1])
  }

  lemma Extends(t: Timeouts, stage: Stage, past: seq<Event>, events: seq<Event>, e: Event)
    ensures Follow(t, stage, events + [e]) == Advance(t, Follow(t, stage, events), e)
    ensures past + events + [e] == past + (events + [e])
  {
    assert (events + [e])[..|events|] == events;
  }

  lemma {:induction false} FollowJoins(t: Timeouts, stage: Stage, a: seq<Event>, b: seq<Event>)
    ensures Follow(t, stage, a + b) == Follow(t, Follow(t, stage, a), b)
    decreases |b|
  {
    if b == [] {
      assert a + b == a;
    } else {
      FollowJoins(t, stage, a, b[..|b| - 1]);
      assert (a + b)[..|a + b| - 1] == a + b[..|b| - 1];
    }
  }

  /** The turn gets `stopToShutdown` to end. */
  method AwaitEnd(target: StopTarget, t: Timeouts) returns (ended: bool, ghost done: seq<Event>)
    modifies target
    ensures target.events == old(target.events) + done
    ensures Follow(t, AwaitStart, done) == if ended then Final(TurnEnded) else ShutdownDue
  {
    ghost var past := target.events;
    var start := target.Now();
    var deadline := start + t.stopToShutdown;
    done := [Read(start)];
    Extends(t, AwaitStart, past, [], Read(start));
    while true
      invariant target.events == past + done
      invariant Follow(t, AwaitStart, done) == AwaitLook(deadline)
      decreases deadline - target.clock
    {
      var exited := target.HasExited();
      Extends(t, AwaitStart, past, done, Looked(exited));
      done := done + [Looked(exited)];
      if exited {
        return true, done;
      }
      var status := target.Send("status");
      Extends(t, AwaitStart, past, done, Sent("status", status));
      done := done + [Sent("status", status)];
      if SawTurnEnd(status) {
        return true, done;
      }
      var now := target.Now();
      Extends(t, AwaitStart, past, done, Read(now));
      done := done + [Read(now)];
      if now >= deadline {
        return false, done;
      }
      target.Sleep(t.poll);
    }
  }

  /** `shutdown` was sent, and the process is gone or was signalled. */
  predicate Escalated(outcome: StopOutcome) {
    outcome == ExitedAfterShutdown || outcome == Terminated
  }

  /** The process exits sooner or later, however long one looks. */
  ghost predicate EverExits(target: StopTarget) {
    exists n: nat :: target.exits(n)
  }

  /** `shutdown`, then `shutdownToSigterm` for the process to exit, then the
    * signal. */
  method ShutdownThenSignal(target: StopTarget, t: Timeouts) returns (outcome: StopOutcome, ghost done: seq<Event>)
    modifies target
    ensures target.events == old(target.events) + done
    ensures Follow(t, ShutdownDue, done) == Final(outcome)
    ensures Escalated(outcome) && (outcome == ExitedAfterShutdown ==> EverExits(target))
  {
    ghost var past := target.events;
    var reply := target.Send("shutdown");
    var sent := target.Now();
    var deadline := sent + t.shutdownToSigterm;
    done := [Sent("shutdown", reply)];
    Extends(t, ShutdownDue, past, [], Sent("shutdown", reply));
    Extends(t, ShutdownDue, past, done, Read(sent));
    done := done + [Read(sent)];
    while true
      invariant target.events == past + done
      invariant Follow(t, ShutdownDue, done) == GraceLook(deadline)
      decreases deadline - target.clock
    {
      var exited := target.HasExited();
      Extends(t, ShutdownDue, past, done, Looked(exited));
      done := done + [Looked(exited)];
      if exited {
        return ExitedAfterShutdown, done;
      }
      var now := target.Now();
      Extends(t, ShutdownDue, past, done, Read(now));
      done := done + [Read(now)];
      if now >= deadline {
        break;
      }
      target.Sleep(t.poll);
    }
    target.Terminate();
    Extends(t, ShutdownDue, past, done, Signalled);
    return Terminated, done + [Signalled];
  }

  /** Whatever the worker does and however the clock runs, the wait ends, and
    * what it did and saw is a complete path of the automaton. */
  method FinishStop(target: StopTarget, next: StopNext, t: Timeouts) returns (outcome: StopOutcome)
    modifies target
    ensures old(target.events) <= target.events
    ensures Follow(t, StartStage(next), target.events[|old(target.events)|..]) == Final(outcome)
    ensures next == NothingFollows <==> outcome == NothingDone
    ensures next == SendShutdown ==> Escalated(outcome)
    ensures outcome == ExitedAfterShutdown ==> EverExits(target)
  {
    if next == NothingFollows {
      return NothingDone;
    }
    ghost var waited: seq<Event> := [];
    if next == AwaitTurnEnd {
      var ended;
      ended, waited := AwaitEnd(target, t);
      if ended {
        assert target.events[|old(target.events)|..] == waited;
        return TurnEnded;
      }
    }
    ghost var rest;
    outcome, rest := ShutdownThenSignal(target, t);
    assert target.events[|old(target.events)|..] == waited + rest;
    FollowJoins(t, StartStage(next), waited, rest);
  }

  // ---- what every path has in common ----

  predicate IsShutdown(e: Event) {
    e.Sent? && e.command == "shutdown"
  }

  predicate SawEnd(e: Event) {
    e.Sent? && e.command == "status" && SawTurnEnd(e.reply)
  }

  /** Shutdown has been sent on a path that is now at this stage. */
  predicate AfterShutdown(stage: Stage) {
    match stage
    case GraceStart => true
    case GraceLook(_) => true
    case GraceClock(_) => true
    case SignalDue => true
    case Final(outcome) => outcome == ExitedAfterShutdown || outcome == Terminated
    case _ => false
  }

  lemma PathPrefix(t: Timeouts, first: Stage, events: seq<Event>)
    requires events != [] && Follow(t, first, events) != Wrong
    ensures Follow(t, first, events[..|events| - 1]) != Wrong && !Follow(t, first, events[..|events| - 1]).Final?
  {
  }

  /** `shutdown` is sent at most once, and the stage tells whether it was. */
  lemma {:induction false} ShutdownOnce(t: Timeouts, next: StopNext, events: seq<Event>)
    requires Follow(t, StartStage(next), events) != Wrong
    ensures AfterShutdown(Follow(t, StartStage(next), events)) <==> exists i :: 0 <= i < |events| && IsShutdown(events[i])
    ensures forall i, j | 0 <= i < j < |events| && IsShutdown(events[i]) :: !IsShutdown(events[j])
    decreases |events|
  {
    if events != [] {
      PathPrefix(t, StartStage(next), events);
      var front := events[..|events| - 1];
      ShutdownOnce(t, next, front);
      var last := events[|events| - 1];
      assert IsShutdown(last) <==> Follow(t, StartStage(next), front) == ShutdownDue;
      assert events == front + [last];
      assert (exists i :: 0 <= i < |events| && IsShutdown(events[i])) <==>
             IsShutdown(last) || exists i :: 0 <= i < |front| && IsShutdown(front[i]) by {
        assert forall i | 0 <= i < |front| :: front[i] == events[i];
        assert last == events[|front|];
      }
    }
  }

  /** A poll that saw the turn end is the last thing a path does. */
  lemma {:induction false} TurnEndIsLast(t: Timeouts, next: StopNext, events: seq<Event>)
    requires Follow(t, StartStage(next), events) != Wrong
    ensures forall i | 0 <= i < |events| && SawEnd(events[i]) :: i == |events| - 1
    ensures events != [] && SawEnd(events[|events| - 1]) ==> Follow(t, StartStage(next), events) == Final(TurnEnded)
    decreases |events|
  {
    if events != [] {
      PathPrefix(t, StartStage(next), events);
      TurnEndIsLast(t, next, events[..|events| - 1]);
      assert forall i | 0 <= i < |events| - 1 :: events[i] == events[..|events| - 1][i];
    }
  }

  /** No shutdown follows a poll that saw the turn end, and shutdown is sent in
    * exactly the stops that did not see it end. */
  lemma NoShutdownAfterTheTurnEnded(t: Timeouts, next: StopNext, events: seq<Event>, outcome: StopOutcome)
    requires Follow(t, StartStage(next), events) == Final(outcome)
    ensures forall i, j | 0 <= i < j < |events| && SawEnd(events[i]) :: !IsShutdown(events[j])
    ensures (exists i :: 0 <= i < |events| && IsShutdown(events[i])) <==> outcome in {ExitedAfterShutdown, Terminated}
  {
    TurnEndIsLast(t, next, events);
    ShutdownOnce(t, next, events);
  }

  /** The first reading started the wait, and the one before `shutdown` at `i`
    * ended it. */
  predicate WaitedItOut(t: Timeouts, events: seq<Event>, i: int) {
    && 1 < i < |events| && IsShutdown(events[i]) && events[0].Read? && events[i - 1].Read?
    && events[i - 1].now >= events[0].now + t.stopToShutdown
  }

  ghost predicate WaitFacts(t: Timeouts, events: seq<Event>, stage: Stage) {
    match stage
    case AwaitStart => events == []
    case AwaitLook(d) => events != [] && events[0].Read? && d == events[0].now + t.stopToShutdown
    case AwaitStatus(d) => |events| > 1 && events[0].Read? && d == events[0].now + t.stopToShutdown
    case AwaitClock(d) => |events| > 1 && events[0].Read? && d == events[0].now + t.stopToShutdown
    case ShutdownDue =>
      |events| > 1 && events[0].Read? && events[|events| - 1].Read?
      && events[|events| - 1].now >= events[0].now + t.stopToShutdown
    case _ => AfterShutdown(stage) ==> exists i :: WaitedItOut(t, events, i)
  }

  /** A turn that was told to stop gets its whole time before `shutdown`. */
  lemma {:induction false} ShutdownWaitsForTheTurn(t: Timeouts, events: seq<Event>)
    requires Follow(t, AwaitStart, events) != Wrong
    ensures WaitFacts(t, events, Follow(t, AwaitStart, events))
    decreases |events|
  {
    if events != [] {
      PathPrefix(t, AwaitStart, events);
      var (front, last) := (events[..|events| - 1], events[|events| - 1]);
      ShutdownWaitsForTheTurn(t, front);
      assert events == front + [last];
      var before := Follow(t, AwaitStart, front);
      if before == ShutdownDue {
        assert WaitedItOut(t, events, |events| - 1);
      } else if AfterShutdown(before) {
        var i :| WaitedItOut(t, front, i);
        assert WaitedItOut(t, events, i);
      }
    }
  }

  /** `shutdown` was sent at `i`, the clock was read right after it, and no look
    * since saw the process gone. */
  ghost predicate StillThere(events: seq<Event>, i: int) {
    && 0 <= i && i + 1 < |events| && IsShutdown(events[i]) && events[i + 1].Read?
    && forall j | i < j < |events| && events[j].Looked? :: !events[j].exited
  }

  /** What a path in its grace period knows. */
  ghost predicate GraceFacts(t: Timeouts, events: seq<Event>, stage: Stage) {
    match stage
    case GraceStart => events != [] && IsShutdown(events[|events| - 1])
    case GraceLook(d) => exists i :: StillThere(events, i) && d == events[i + 1].now + t.shutdownToSigterm
    case GraceClock(d) => exists i :: StillThere(events, i) && d == events[i + 1].now + t.shutdownToSigterm
    case SignalDue => exists i :: StillThere(events, i) && OverdueSince(t, events, i)
    case _ => true
  }

  /** The last clock reading is a grace period after the one at `i + 1`. */
  predicate OverdueSince(t: Timeouts, events: seq<Event>, i: int)
    requires 0 <= i && i + 1 < |events| && events[i + 1].Read?
  {
    var last := events[|events| - 1];
    last.Read? && last.now >= events[i + 1].now + t.shutdownToSigterm
  }

  lemma {:induction false} GraceRuns(t: Timeouts, next: StopNext, events: seq<Event>)
    requires Follow(t, StartStage(next), events) != Wrong
    ensures GraceFacts(t, events, Follow(t, StartStage(next), events))
    decreases |events|
  {
    if events != [] {
      PathPrefix(t, StartStage(next), events);
      var (front, last) := (events[..|events| - 1], events[|events| - 1]);
      GraceRuns(t, next, front);
      assert events == front + [last];
      var before := Follow(t, StartStage(next), front);
      if before.GraceStart? {
        assert StillThere(events, |events| - 2);
      } else if (before.GraceLook? && !last.exited) || before.GraceClock? {
        var i :| StillThere(front, i) && before.deadline == front[i + 1].now + t.shutdownToSigterm;
        assert StillThere(events, i);
      }
    }
  }

  /** SIGTERM comes last, and only to a worker that was sent `shutdown` and was
    * still there at every look until the grace period had run out. */
  lemma SigtermOnlyAfterTheGracePeriod(t: Timeouts, next: StopNext, events: seq<Event>, outcome: StopOutcome)
    requires Follow(t, StartStage(next), events) == Final(outcome)
    ensures outcome == Terminated <==> Signalled in events
    ensures outcome == Terminated ==>
              var before := events[..|events| - 1];
              && events == before + [Signalled] && Signalled !in before
              && exists i :: StillThere(before, i) && OverdueSince(t, before, i)
  {
    SignalledIsLast(t, next, events);
    if outcome == Terminated {
      PathPrefix(t, StartStage(next), events);
      GraceRuns(t, next, events[..|events| - 1]);
      SignalledIsLast(t, next, events[..|events| - 1]);
    }
  }

  lemma {:induction false} SignalledIsLast(t: Timeouts, next: StopNext, events: seq<Event>)
    requires Follow(t, StartStage(next), events) != Wrong
    ensures Signalled in events <==> Follow(t, StartStage(next), events) == Final(Terminated)
    ensures Signalled in events ==> events[|events| - 1] == Signalled
    decreases |events|
  {
    if events != [] {
      PathPrefix(t, StartStage(next), events);
      SignalledIsLast(t, next, events[..|events| - 1]);
      assert events == events[..|events| - 1] + [events[|events| - 1]];
    }
  }

  // ---- the whole stop ----

  /** What the route relays and how the stop ends, from what the worker answers
    * to the first requests: one that answers nothing, stops answering or waits
    * for a decision is shut down; an accepted `stop` is waited for; and nothing
    * happens to a worker without a turn. */
  predicate StopEnds(first: Option<Reply>, second: Option<Reply>, third: Option<Reply>, answer: Reply, outcome: StopOutcome) {
    if first.None? then Escalated(outcome) && !answer.ok
    else if InState(first, {"waiting_for_approval"}) then Escalated(outcome) && answer.ok
    else if !InState(first, {"running", "paused"}) then
      outcome == NothingDone && answer == if second.Some? then second.value else NO_ANSWER
    else if second.None? then Escalated(outcome) && !answer.ok
    else if second.value.ok then outcome != NothingDone && answer == second.value
    else if InState(third, {"waiting_for_approval"}) then Escalated(outcome) && answer == second.value
    else outcome == NothingDone && answer == second.value
  }

  /** What is sent: `stop` unless the worker is silent or waits for a decision,
    * `shutdown` and the signal exactly as the outcome says. */
  predicate StopSends(first: Option<Reply>, done: seq<Event>, outcome: StopOutcome) {
    && (Sends(done, "stop") <==> first.Some? && !InState(first, {"waiting_for_approval"}))
    && (Sends(done, "shutdown") <==> Escalated(outcome))
    && (Signalled in done <==> outcome == Terminated)
  }

  /** `Supervisor::stop`, the waiting thread included. A worker that has to go and
    * never exits is signalled. */
  method Stop(target: StopTarget, t: Timeouts) returns (answer: Reply, outcome: StopOutcome)
    modifies target
    ensures StopEnds(target.replies(old(target.step)), target.replies(old(target.step) + 1),
                     target.replies(old(target.step) + 2), answer, outcome)
    ensures Escalated(outcome) && !EverExits(target) ==> outcome == Terminated
    ensures old(target.events) <= target.events
    ensures StopSends(target.replies(old(target.step)), target.events[|old(target.events)|..], outcome)
  {
    ghost var (a, b, c) := (target.replies(target.step), target.replies(target.step + 1), target.replies(target.step + 2));
    var next;
    answer, next := BeginStop(target);
    ghost var begun := target.events;
    outcome := FinishStop(target, next, t);
    WholeStopSends(t, a, b, c, next, target.events[|begun|..], outcome);
    assert target.events[|old(target.events)|..] == BeginEvents(a, b, c) + target.events[|begun|..];
  }

  lemma WholeStopSends(
      t: Timeouts, a: Option<Reply>, b: Option<Reply>, c: Option<Reply>, next: StopNext, rest: seq<Event>, outcome: StopOutcome)
    requires Follow(t, StartStage(next), rest) == Final(outcome)
    ensures StopSends(a, BeginEvents(a, b, c) + rest, outcome)
  {
    BeginSends(a, b, c);
    PathSends(t, next, rest, outcome);
    SendsJoin(BeginEvents(a, b, c), rest, "stop");
    SendsJoin(BeginEvents(a, b, c), rest, "shutdown");
  }

  predicate Sends(events: seq<Event>, command: string) {
    exists e :: e in events && SendsIt(e, command)
  }

  predicate SendsIt(e: Event, command: string) {
    e.Sent? && e.command == command
  }

  lemma SendsJoin(a: seq<Event>, b: seq<Event>, command: string)
    ensures Sends(a + b, command) <==> Sends(a, command) || Sends(b, command)
  {
    assert forall e :: e in a + b <==> e in a || e in b;
  }

  /** The requests a stop begins with. */
  lemma BeginSends(first: Option<Reply>, second: Option<Reply>, third: Option<Reply>)
    ensures var asked := BeginEvents(first, second, third);
            && !Sends(asked, "shutdown") && Signalled !in asked
            && (Sends(asked, "stop") <==> first.Some? && !InState(first, {"waiting_for_approval"}))
  {
    var asked := BeginEvents(first, second, third);
    if first.Some? && !InState(first, {"waiting_for_approval"}) {
      assert SendsIt(asked[1], "stop");
    }
  }

  lemma NoStopAt(t: Timeouts, stage: Stage, e: Event)
    requires Advance(t, stage, e) != Wrong
    ensures !SendsIt(e, "stop")
  {
  }

  lemma {:induction false} NoStopOnAPath(t: Timeouts, first: Stage, events: seq<Event>)
    requires Follow(t, first, events) != Wrong
    ensures forall i | 0 <= i < |events| :: !SendsIt(events[i], "stop")
    decreases |events|
  {
    if events != [] {
      var (front, last) := (events[..|events| - 1], events[|events| - 1]);
      PathPrefix(t, first, events);
      NoStopAt(t, Follow(t, first, front), last);
      NoStopOnAPath(t, first, front);
      assert forall i | 0 <= i < |front| :: events[i] == front[i];
    }
  }

  lemma PathSends(t: Timeouts, next: StopNext, events: seq<Event>, outcome: StopOutcome)
    requires Follow(t, StartStage(next), events) == Final(outcome)
    ensures !Sends(events, "stop")
    ensures Sends(events, "shutdown") <==> Escalated(outcome)
    ensures Signalled in events <==> outcome == Terminated
  {
    NoStopOnAPath(t, StartStage(next), events);
    NoShutdownAfterTheTurnEnded(t, next, events, outcome);
    assert forall e :: SendsIt(e, "shutdown") <==> IsShutdown(e);
    SigtermOnlyAfterTheGracePeriod(t, next, events, outcome);
  }
}
