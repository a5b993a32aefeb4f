/** What crash recovery reads from a log, in terms of the events in it: markers,
  * classification, prompts, usage, lost calls and settlements.
  */
module SessionTheorems {
  import opened Common
  import opened SessionLog

  // ---- markers ----

  lemma {:induction false} StartedHolds(log: Log, a: Action)
    ensures a in StartedIn(log) <==> ActionStarted(a) in log
    decreases |log|
  {
    if log != [] {
      var (init, last) := (log[..|log| - 1], log[|log| - 1]);
      StartedHolds(init, a);
      assert log == init + [last];
    }
  }

  lemma {:induction false} UnfinishedHolds(started: seq<Action>, log: Log, a: Action)
    ensures a in Unfinished(started, log) <==> a in started && ActionFinished(a.marker) !in log
  {
    if started != [] {
      UnfinishedHolds(started[1..], log, a);
    }
  }

  /** An action dangles exactly when it was started and its marker never
    * finished, wherever in the log the two stand. */
  lemma DanglingIff(log: Log, a: Action)
    ensures a in Dangling(log) <==> ActionStarted(a) in log && ActionFinished(a.marker) !in log
  {
    StartedHolds(log, a);
    UnfinishedHolds(StartedIn(log), log, a);
  }

  /** `at` is the last action of the task of this kind. */
  predicate IsLast(actions: seq<Action>, id: string, sideEffecting: bool, at: int) {
    && 0 <= at < |actions| && actions[at].task == id && actions[at].sideEffecting == sideEffecting
    && forall k | at < k < |actions| :: actions[k].task != id || actions[k].sideEffecting != sideEffecting
  }

  lemma {:induction false} LastWithFinds(actions: seq<Action>, id: string, sideEffecting: bool)
    ensures match LastWith(actions, id, sideEffecting)
            case None => forall a | a in actions :: a.task != id || a.sideEffecting != sideEffecting
            case Some(a) => exists at :: IsLast(actions, id, sideEffecting, at) && actions[at] == a
    decreases |actions|
  {
    if actions != [] {
      var (init, last) := (actions[..|actions| - 1], actions[|actions| - 1]);
      LastWithFinds(init, id, sideEffecting);
      assert actions == init + [last];
      if last.task == id && last.sideEffecting == sideEffecting {
        assert IsLast(actions, id, sideEffecting, |init|);
      } else if LastWith(init, id, sideEffecting).Some? {
        var at :| IsLast(init, id, sideEffecting, at) && init[at] == LastWith(init, id, sideEffecting).value;
        assert IsLast(actions, id, sideEffecting, at);
      }
    }
  }

  /** Something that changes the world was started for the task and is not known
    * to have finished. */
  ghost predicate InFlight(log: Log, id: string) {
    exists a :: Pends(log, id, a)
  }

  predicate Pends(log: Log, id: string, a: Action) {
    ActionStarted(a) in log && a.task == id && a.sideEffecting && ActionFinished(a.marker) !in log
  }

  lemma InFlightIff(log: Log, id: string)
    ensures LastWith(Dangling(log), id, true).Some? <==> InFlight(log, id)
  {
    LastWithFinds(Dangling(log), id, true);
    if LastWith(Dangling(log), id, true).Some? {
      var at :| IsLast(Dangling(log), id, true, at);
      DanglingIff(log, Dangling(log)[at]);
      assert Pends(log, id, Dangling(log)[at]);
    } else if InFlight(log, id) {
      var a :| Pends(log, id, a);
      DanglingIff(log, a);
      assert false;
    }
  }

  /** What a card shows as unfinished is one of the task's own, side-effecting
    * whenever there is such a one. */
  lemma EvidenceIsTheTasks(log: Log, id: string)
    ensures Evidence(log, id).None? <==> forall a | ActionStarted(a) in log && a.task == id :: ActionFinished(a.marker) in log
    ensures Evidence(log, id).Some? ==>
              var a := Evidence(log, id).value;
              && ActionStarted(a) in log && ActionFinished(a.marker) !in log && a.task == id
              && (a.sideEffecting <==> InFlight(log, id))
              && exists at :: IsLast(Dangling(log), id, a.sideEffecting, at) && Dangling(log)[at] == a
  {
    InFlightIff(log, id);
    LastWithFinds(Dangling(log), id, true);
    LastWithFinds(Dangling(log), id, false);
    forall a ensures a in Dangling(log) <==> ActionStarted(a) in log && ActionFinished(a.marker) !in log {
      DanglingIff(log, a);
    }
    if Evidence(log, id).Some? {
      var side := Evidence(log, id).value.sideEffecting;
      var at :| IsLast(Dangling(log), id, side, at) && Dangling(log)[at] == Evidence(log, id).value;
      assert Dangling(log)[at] in Dangling(log);
    }
  }

  // ---- what is resumed ----

  /** Statuses in which nothing outside the process was going on. */
  predicate AtRest(s: Status) {
    s.Created? || s.PreparingContext? || s.WaitingForModel? || s.Paused? || s.Interrupted?
  }

  /** The task may be resumed without asking. */
  ghost predicate SafeToResume(log: Log, id: string) {
    var status := StatusIn(Active(log), id);
    status.Some? && AtRest(status.value) && !InFlight(log, id) && WorkerSpawned !in log
  }

  /** A task's outcome is unknown exactly when something is in flight, and it is
    * resumed without asking exactly when that is safe. */
  lemma ClassifiedAsSafeIff(session: string, log: Log, r: Recovered)
    requires ClassifyTask(session, log, r.task) == Some(r)
    ensures r.unknown <==> InFlight(log, r.task)
    ensures r.auto <==> SafeToResume(log, r.task)
  {
    InFlightIff(log, r.task);
    EvidenceIsTheTasks(log, r.task);
  }

  // ---- prompts ----

  /** The newest event that records a prompt for the task. */
  predicate IsNewestPrompt(events: Log, id: string, i: int) {
    Prompts(events, id, i) && forall k | i < k < |events| :: !Prompts(events, id, k)
  }

  predicate Prompts(events: Log, id: string, i: int) {
    && 0 <= i < |events| && events[i].TaskRecorded? && events[i].id == id
    && !events[i].status.Unrecognised? && events[i].prompt != ""
  }

  /** A task's prompt is the newest one recorded with a status that is
    * understood, and blank only when there is none. */
  lemma {:induction false} PromptIsTheNewest(events: Log, id: string)
    ensures PromptIn(events, id) == "" ==> forall i :: !Prompts(events, id, i)
    ensures PromptIn(events, id) != "" ==>
              exists i :: IsNewestPrompt(events, id, i) && events[i].prompt == PromptIn(events, id)
    decreases |events|
  {
    if events != [] {
      var (init, n) := (events[..|events| - 1], |events| - 1);
      PromptIsTheNewest(init, id);
      assert forall i :: i != n ==> (Prompts(events, id, i) <==> Prompts(init, id, i));
      if Prompts(events, id, n) {
        assert IsNewestPrompt(events, id, n);
      } else if PromptIn(init, id) != "" {
        var i :| IsNewestPrompt(init, id, i) && init[i].prompt == PromptIn(init, id);
        assert IsNewestPrompt(events, id, i);
      }
    }
  }

  // ---- usage ----

  function Tokens(log: Log, id: string): nat {
    match UsageIn(log, id)
    case None => 0
    case Some(n) => n
  }

  /** Usage adds up over the parts of a log. With `UsageOfOne` this makes it the
    * sum of the task's usage events. */
  lemma {:induction false} UsageAddsUp(a: Log, b: Log, id: string)
    ensures UsageIn(a + b, id).Some? <==> UsageIn(a, id).Some? || UsageIn(b, id).Some?
    ensures Tokens(a + b, id) == Tokens(a, id) + Tokens(b, id)
    decreases |b|
  {
    if b == [] {
      assert a + b == a;
    } else {
      var (init, last) := (b[..|b| - 1], b[|b| - 1]);
      UsageAddsUp(a, init, id);
      assert (a + b)[..|a + b| - 1] == a + init;
    }
  }

  lemma UsageOfOne(e: Event, id: string)
    ensures UsageIn([e], id) == if e.UsageRecorded? && e.id == id then Some(e.tokens) else None
    ensures UsageIn([], id) == None
  {
    assert [e][..0] == [];
  }

  // ---- lost calls ----

  /** A model call that a crash cut off before its usage was recorded. */
  predicate LostCall(log: Log, a: Action) {
    && ActionStarted(a) in log && ActionFinished(a.marker) !in log
    && a.name == "model_call" && a.estimate.Some? && !Accounted(log, a.marker)
  }

  lemma {:induction false} LostAmongIff(log: Log, actions: seq<Action>, e: Event)
    ensures e in LostCallsAmong(log, actions) <==>
            exists a :: a in actions && a.name == "model_call" && a.estimate.Some? && !Accounted(log, a.marker)
                        && e == UsageRecorded(a.task, a.estimate.value, Some(a.marker), true)
  {
    if actions != [] {
      LostAmongIff(log, actions[1..], e);
      assert forall a :: a in actions <==> a == actions[0] || a in actions[1..];
    }
  }

  /** What is accounted for after a crash: each lost call of an idle session, at
    * its own estimate, to its own task, marked as lost; and nothing else. */
  lemma LostCallsExactly(log: Log, live: bool, e: Event)
    ensures e in LostCalls(log, live) <==>
            !live && exists a :: LostCall(log, a) && e == UsageRecorded(a.task, a.estimate.value, Some(a.marker), true)
  {
    if !live {
      LostAmongIff(log, Dangling(log), e);
      forall a ensures a in Dangling(log) <==> ActionStarted(a) in log && ActionFinished(a.marker) !in log {
        DanglingIff(log, a);
      }
    }
  }

  // ---- settlements ----

  /** What the completion gate finds, as a task's status. */
  predicate EndsAs(v: Verdict, s: Status) {
    (v.Eligible? && s.Complete?) || (v.Ineligible? && s.Incomplete?) || (v.CheckFailed? && s.Failed?)
  }

  /** A completion marker settles its task exactly when the gate has a verdict on
    * it, the task has a status that is understood and not terminal, and nothing
    * is in flight for it. */
  lemma SettledByIff(log: Log, verdicts: Verdicts, a: Action, id: string)
    ensures SettledBy(log, verdicts, a, id) <==>
            && a.name == "completion_settlement" && a.task == id && a.marker in verdicts
            && StatusIn(Active(log), id).Some? && Understood(StatusIn(Active(log), id).value) && !InFlight(log, id)
  {
    InFlightIff(log, id);
  }

  /** Statuses of tasks that have not ended. */
  predicate Understood(s: Status) {
    AtRest(s) || s.RunningTool? || s.ApplyingPatch? || s.Validating? || s.LegacyRunning?
    || s.UnknownExternalOutcome? || s.WaitingForApproval?
  }

  /** Some marker that settles the task is finished by these events. */
  predicate Closes(log: Log, verdicts: Verdicts, actions: seq<Action>, events: seq<Event>, id: string) {
    exists b :: b in actions && SettledBy(log, verdicts, b, id) && ActionFinished(b.marker) in events
  }

  /** Settling finishes the marker it used, and the markers of tasks that had
    * ended already, so none of them is found again. */
  lemma {:induction false} SettlementsFinishMarkers(
      log: Log, verdicts: Verdicts, actions: seq<Action>, settled: set<string>, a: Action)
    requires a in actions && a.name == "completion_settlement" && a.task !in settled
    ensures var events := SettlementsAmong(log, verdicts, actions, settled).events;
            var status := StatusIn(Active(log), a.task);
            && (status.Some? && Terminal(status.value) ==> ActionFinished(a.marker) in events)
            && (SettledBy(log, verdicts, a, a.task) ==> Closes(log, verdicts, actions, events, a.task))
  {
    var (first, rest) := (actions[0], actions[1..]);
    var settles := first.name == "completion_settlement" && first.task !in settled && Settles(log, verdicts, first).Some?;
    var now := if settles then settled + {first.task} else settled;
    if settles && first.task == a.task {
      assert Closes(log, verdicts, actions, SettlementsAmong(log, verdicts, actions, settled).events, a.task);
    } else if a != first {
      SettlementsFinishMarkers(log, verdicts, rest, now, a);
      if SettledBy(log, verdicts, a, a.task) {
        var b :| b in rest && SettledBy(log, verdicts, b, a.task)
                 && ActionFinished(b.marker) in SettlementsAmong(log, verdicts, rest, now).events;
        assert b in actions;
      }
    }
  }

  /** The marker that settled the task this event ends, and its verdict. */
  predicate RecordsVerdict(log: Log, verdicts: Verdicts, actions: seq<Action>, a: Action, e: Event) {
    a in actions && e.TaskRecorded? && SettledBy(log, verdicts, a, e.id) && EndsAs(verdicts[a.marker], e.status)
  }

  /** A settled task is recorded with the status its marker's verdict stands
    * for. */
  lemma {:induction false} SettlementsRecordVerdicts(
      log: Log, verdicts: Verdicts, actions: seq<Action>, settled: set<string>, e: Event)
    requires e in SettlementsAmong(log, verdicts, actions, settled).events && e.TaskRecorded?
    ensures exists a :: RecordsVerdict(log, verdicts, actions, a, e)
  {
    var (a, rest) := (actions[0], actions[1..]);
    var now := if a.name == "completion_settlement" && a.task !in settled && Settles(log, verdicts, a).Some?
                  then settled + {a.task} else settled;
    if e in SettlementsAmong(log, verdicts, rest, now).events {
      SettlementsRecordVerdicts(log, verdicts, rest, now, e);
      var b :| RecordsVerdict(log, verdicts, rest, b, e);
      assert RecordsVerdict(log, verdicts, actions, b, e);
    } else {
      assert RecordsVerdict(log, verdicts, actions, a, e);
    }
  }
}
