/** The session log as crash recovery reads it: the replays of
  * crates/workspace-engine/src/session.rs and the classifier of
  * crates/workspace-engine/src/recovery.rs.
  */
module SessionLog {
  import opened Common

  datatype Status =
    | Created | PreparingContext | WaitingForModel | RunningTool | WaitingForApproval | Paused
    | ApplyingPatch | Validating | Complete | Incomplete | Failed | Cancelled
    | ToolBudgetExhausted | TokenBudgetExhausted | TaskBudgetExhausted | TaskCompactionCannotFit
    | TaskNoProgress | TaskPrePlanExplorationExhausted
    | Interrupted | UnknownExternalOutcome
    | LegacyRunning                    // "running", which reads as Interrupted
    | Unrecognised(text: string)       // a status of some other version

  /** `is_terminal` of the parsed status; a status that does not parse is not. */
  predicate Terminal(s: Status) {
    s.Complete? || s.Incomplete? || s.Failed? || s.Cancelled? || s.ToolBudgetExhausted? || s.TokenBudgetExhausted?
    || s.TaskBudgetExhausted? || s.TaskCompactionCannotFit? || s.TaskNoProgress? || s.TaskPrePlanExplorationExhausted?
  }

  /** An action marker; `estimate` is what a model call was expected to cost. */
  datatype Action = Action(marker: string, task: string, name: string, sideEffecting: bool, estimate: Option<nat>)

  datatype Event =
    | TaskRecorded(id: string, status: Status, prompt: string)
    | TaskSuperseded(id: string)
    | UsageRecorded(id: string, tokens: nat, call: Option<string>, lost: bool)
    | ActionStarted(action: Action)
    | ActionFinished(marker: string)
    | WorkerSpawned
    | Rewound(through: nat)
    | OtherEvent

  /** Events in order; the sequence number of `log[i]` is `i + 1`. */
  type Log = seq<Event>

  // ---- the active conversation ----

  function LastRewind(log: Log): (r: Option<nat>)
    ensures r.Some? ==> r.value < |log| && log[r.value].Rewound?
  {
    if log == [] then None
    else if log[|log| - 1].Rewound? then Some(|log| - 1)
    else LastRewind(log[..|log| - 1])
  }

  /** `active_events`: what the last rewind left, and what came after it. */
  function Active(log: Log): Log {
    match LastRewind(log)
    case None => log
    case Some(at) => log[..if log[at].through <= at then log[at].through else at + 1] + log[at + 1..]
  }

  lemma ActiveGrows(log: Log, e: Event)
    requires !e.Rewound?
    ensures Active(log + [e]) == Active(log) + [e]
  {
    LastRewindStays(log, e);
    match LastRewind(log)
    case None =>
    case Some(at) => CutsGrow(log, e, if log[at].through <= at then log[at].through else at + 1, at + 1);
  }

  lemma LastRewindStays(log: Log, e: Event)
    requires !e.Rewound?
    ensures LastRewind(log + [e]) == LastRewind(log)
    ensures forall i | 0 <= i < |log| :: (log + [e])[i] == log[i]
  {
    assert (log + [e])[..|log|] == log;
  }

  lemma CutsGrow(log: Log, e: Event, i: nat, j: nat)
    requires i <= |log| && j <= |log|
    ensures (log + [e])[..i] + (log + [e])[j..] == (log[..i] + log[j..]) + [e]
  {
    assert (log + [e])[..i] == log[..i] && (log + [e])[j..] == log[j..] + [e];
  }

  // ---- what a replay answers, one task at a time ----

  function StatusIn(events: Log, id: string): Option<Status> {
    if events == [] then None
    else
      var e := events[|events| - 1];
      if e.TaskRecorded? && e.id == id then Some(e.status) else StatusIn(events[..|events| - 1], id)
  }

  /** The newest prompt recorded for the task: a blank one means "not recorded
    * on this event", and an event whose status does not parse is skipped. */
  function PromptIn(events: Log, id: string): string {
    if events == [] then ""
    else
      var e := events[|events| - 1];
      if e.TaskRecorded? && e.id == id && !e.status.Unrecognised? && e.prompt != ""
      then e.prompt else PromptIn(events[..|events| - 1], id)
  }

  predicate SupersededIn(events: Log, id: string) {
    TaskSuperseded(id) in events
  }

  /** Tokens recorded for the task, or None when nothing was: not the same as
    * zero. */
  function UsageIn(log: Log, id: string): Option<nat> {
    if log == [] then None
    else
      var (e, before) := (log[|log| - 1], UsageIn(log[..|log| - 1], id));
      if e.UsageRecorded? && e.id == id then Some(if before.Some? then before.value + e.tokens else e.tokens) else before
  }

  predicate LostIn(log: Log, id: string) {
    exists e :: e in log && e.UsageRecorded? && e.id == id && e.lost
  }

  /** The task is no longer a question: it ended, or a later turn took it. */
  predicate Settled(log: Log, id: string) {
    var status := StatusIn(Active(log), id);
    (status.Some? && Terminal(status.value)) || SupersededIn(Active(log), id)
  }

  // ---- the classifier ----

  function StartedIn(log: Log): seq<Action> {
    if log == [] then []
    else
      var (e, before) := (log[|log| - 1], StartedIn(log[..|log| - 1]));
      if e.ActionStarted? then before + [e.action] else before
  }

  /** `dangling_actions`: started and never finished, over the whole log. */
  function Dangling(log: Log): seq<Action> {
    Unfinished(StartedIn(log), log)
  }

  function Unfinished(started: seq<Action>, log: Log): seq<Action> {
    if started == [] then []
    else (if ActionFinished(started[0].marker) in log then [] else [started[0]]) + Unfinished(started[1..], log)
  }

  function LastWith(actions: seq<Action>, id: string, sideEffecting: bool): Option<Action> {
    if actions == [] then None
    else
      var a := actions[|actions| - 1];
      if a.task == id && a.sideEffecting == sideEffecting then Some(a)
      else LastWith(actions[..|actions| - 1], id, sideEffecting)
  }

  /** The marker a card shows: a side-effecting one when there is one. */
  function Evidence(log: Log, id: string): Option<Action> {
    var sided := LastWith(Dangling(log), id, true);
    if sided.Some? then sided else LastWith(Dangling(log), id, false)
  }

  datatype Recovered = Recovered(
    session: string, task: string, unknown: bool, dangling: Option<Action>, previous: Status, auto: bool)

  /** What the classifier says of one task: nothing when it ended, or is
    * waiting for a human. */
  function ClassifyTask(session: string, log: Log, id: string): Option<Recovered> {
    match StatusIn(Active(log), id)
    case None => None
    case Some(status) =>
      if Terminal(status) || status.WaitingForApproval? then None
      else
        var dangling := Evidence(log, id);
        var unknown := dangling.Some? && dangling.value.sideEffecting;
        var statusAllows := !(status.RunningTool? || status.ApplyingPatch? || status.Validating? || status.Unrecognised?);
        Some(Recovered(session, id, unknown, dangling, status,
                       !unknown && statusAllows && !status.LegacyRunning? && !status.UnknownExternalOutcome?
                       && WorkerSpawned !in log))
  }

  /** Every task with a status, by first appearance. */
  function TaskIds(events: Log): seq<string> {
    if events == [] then []
    else
      var (e, before) := (events[|events| - 1], TaskIds(events[..|events| - 1]));
      if e.TaskRecorded? && e.id !in before then before + [e.id] else before
  }

  function ClassifyTasks(session: string, log: Log, settled: set<string>, ids: seq<string>): seq<Recovered> {
    if ids == [] then []
    else
      var first := if ids[0] in settled then None else ClassifyTask(session, log, ids[0]);
      (if first.Some? then [first.value] else []) + ClassifyTasks(session, log, settled, ids[1..])
  }

  /** The tasks `classify_session` returns; none for a session whose worker is
    * alive. */
  function Classify(session: string, log: Log, live: bool, verdicts: Verdicts): seq<Recovered> {
    if live then [] else ClassifyTasks(session, log, Settlements(log, live, verdicts).settled, TaskIds(Active(log)))
  }

  predicate Accounted(log: Log, marker: string) {
    exists e :: e in log && e.UsageRecorded? && e.call == Some(marker)
  }

  function LostCallsAmong(log: Log, actions: seq<Action>): (r: seq<Event>)
    ensures forall i | 0 <= i < |r| :: r[i].UsageRecorded?
  {
    if actions == [] then []
    else
      var a := actions[0];
      (if a.name == "model_call" && !Accounted(log, a.marker) && a.estimate.Some?
       then [UsageRecorded(a.task, a.estimate.value, Some(a.marker), true)] else [])
      + LostCallsAmong(log, actions[1..])
  }

  /** `account_for_lost_model_calls`. */
  function LostCalls(log: Log, live: bool): (r: seq<Event>)
    ensures forall i | 0 <= i < |r| :: r[i].UsageRecorded?
  {
    if live then [] else LostCallsAmong(log, Dangling(log))
  }

  /** What the completion gate finds when it is asked again after a crash. */
  datatype Verdict = Eligible | Ineligible | CheckFailed

  /** By marker; none for a marker whose repository cannot be used. */
  type Verdicts = map<string, Verdict>

  function VerdictStatus(v: Verdict): Status {
    match v
    case Eligible => Complete
    case Ineligible => Incomplete
    case CheckFailed => Failed
  }

  /** What the settling appends, and the tasks it settled. */
  datatype Settling = Settling(events: seq<Event>, settled: set<string>)

  /** The verdict that settles the action's task, if it may be settled: its
    * status is understood and not terminal, and nothing side-effecting is
    * dangling. */
  function Settles(log: Log, verdicts: Verdicts, a: Action): Option<Verdict> {
    var status := StatusIn(Active(log), a.task);
    if status.Some? && !status.value.Unrecognised? && !Terminal(status.value) && a.marker in verdicts
       && LastWith(Dangling(log), a.task, true).None?
    then Some(verdicts[a.marker]) else None
  }

  /** `settle_crashed_completions`, action by action. */
  function SettlementsAmong(log: Log, verdicts: Verdicts, actions: seq<Action>, settled: set<string>): Settling {
    if actions == [] then Settling([], settled)
    else
      var (a, rest) := (actions[0], actions[1..]);
      if a.name != "completion_settlement" || a.task in settled then SettlementsAmong(log, verdicts, rest, settled)
      else
        var status := StatusIn(Active(log), a.task);
        if status.Some? && Terminal(status.value) then
          Prepend([ActionFinished(a.marker)], SettlementsAmong(log, verdicts, rest, settled))
        else
          match Settles(log, verdicts, a)
          case None => SettlementsAmong(log, verdicts, rest, settled)
          case Some(v) =>
            Prepend([TaskRecorded(a.task, VerdictStatus(v), PromptIn(Active(log), a.task)), ActionFinished(a.marker)],
                    SettlementsAmong(log, verdicts, rest, settled + {a.task}))
  }

  function Prepend(events: seq<Event>, more: Settling): Settling {
    Settling(events + more.events, more.settled)
  }

  function Settlements(log: Log, live: bool, verdicts: Verdicts): Settling {
    if live then Settling([], {}) else SettlementsAmong(log, verdicts, Dangling(log), {})
  }

  /** Everything `classify_session` appends. */
  function Preparation(log: Log, live: bool, verdicts: Verdicts): seq<Event> {
    LostCalls(log, live) + Settlements(log, live, verdicts).events
  }

  // ---- lemmas ----

  /** An append of the classifier: spending, a finished marker, or the end of a
    * task that was settled, with the prompt it had. */
  predicate Prepares(log: Log, settled: set<string>, e: Event) {
    match e
    case UsageRecorded(_, _, _, _) => true
    case ActionFinished(_) => true
    case TaskRecorded(id, status, prompt) => id in settled && Terminal(status) && prompt == PromptIn(Active(log), id)
    case _ => false
  }

  lemma {:induction false} SettlementsPrepare(log: Log, verdicts: Verdicts, actions: seq<Action>, settled: set<string>)
    ensures var r := SettlementsAmong(log, verdicts, actions, settled);
            settled <= r.settled && forall e | e in r.events :: Prepares(log, r.settled, e)
  {
    if actions != [] {
      var (a, rest) := (actions[0], actions[1..]);
      SettlementsPrepare(log, verdicts, rest, settled);
      SettlementsPrepare(log, verdicts, rest, settled + {a.task});
    }
  }

  lemma {:induction false} SettledIsRecorded(log: Log, verdicts: Verdicts, actions: seq<Action>, settled: set<string>, id: string)
    requires id in SettlementsAmong(log, verdicts, actions, settled).settled && id !in settled
    ensures exists e :: e in SettlementsAmong(log, verdicts, actions, settled).events
                        && e.TaskRecorded? && e.id == id && Terminal(e.status)
  {
    var (a, rest) := (actions[0], actions[1..]);
    var events := SettlementsAmong(log, verdicts, actions, settled).events;
    var now := if a.name == "completion_settlement" && a.task !in settled && Settles(log, verdicts, a).Some?
                  then settled + {a.task} else settled;
    if id in now {
      assert events[0].TaskRecorded? && events[0].id == id && events[0] in events;
    } else {
      SettledIsRecorded(log, verdicts, rest, now, id);
      var e :| e in SettlementsAmong(log, verdicts, rest, now).events && e.TaskRecorded? && e.id == id && Terminal(e.status);
      assert e in events;
    }
  }

  lemma PreparationPrepares(log: Log, live: bool, verdicts: Verdicts, e: Event)
    requires e in Preparation(log, live, verdicts)
    ensures Prepares(log, Settlements(log, live, verdicts).settled, e)
  {
    SettlementsPrepare(log, verdicts, Dangling(log), {});
  }

  /** A task is settled exactly when some dangling settlement marker of its own
    * has a verdict and nothing forbids using it. */
  predicate SettledBy(log: Log, verdicts: Verdicts, a: Action, id: string) {
    a.name == "completion_settlement" && a.task == id && Settles(log, verdicts, a).Some?
  }

  predicate SettledByAny(log: Log, verdicts: Verdicts, actions: seq<Action>, id: string) {
    exists a :: a in actions && SettledBy(log, verdicts, a, id)
  }

  lemma FirstOrRest(log: Log, verdicts: Verdicts, actions: seq<Action>, id: string)
    requires actions != []
    ensures SettledByAny(log, verdicts, actions, id) <==>
            SettledBy(log, verdicts, actions[0], id) || SettledByAny(log, verdicts, actions[1..], id)
  {
    assert actions[0] in actions;
    if SettledByAny(log, verdicts, actions[1..], id) {
      var a :| a in actions[1..] && SettledBy(log, verdicts, a, id);
      assert a in actions;
    }
  }

  lemma {:induction false} SettledAmongIff(log: Log, verdicts: Verdicts, actions: seq<Action>, settled: set<string>, id: string)
    ensures id in SettlementsAmong(log, verdicts, actions, settled).settled <==>
            id in settled || SettledByAny(log, verdicts, actions, id)
  {
    if actions != [] {
      var (a, rest) := (actions[0], actions[1..]);
      FirstOrRest(log, verdicts, actions, id);
      SettledAmongIff(log, verdicts, rest, settled, id);
      SettledAmongIff(log, verdicts, rest, settled + {a.task}, id);
    }
  }

  /** What one more event does to a task's status and supersession. */
  lemma AppendMoves(log: Log, e: Event, id: string)
    requires !e.Rewound?
    ensures StatusIn(Active(log + [e]), id) ==
            if e.TaskRecorded? && e.id == id then Some(e.status) else StatusIn(Active(log), id)
    ensures SupersededIn(Active(log + [e]), id) <==> SupersededIn(Active(log), id) || e == TaskSuperseded(id)
  {
    ActiveGrows(log, e);
    assert (Active(log) + [e])[..|Active(log)|] == Active(log);
  }

  lemma {:induction false} HasStatusIffListed(events: Log, id: string)
    ensures StatusIn(events, id).Some? <==> id in TaskIds(events)
  {
    if events != [] {
      HasStatusIffListed(events[..|events| - 1], id);
    }
  }

  lemma {:induction false} ClassifiedIff(session: string, log: Log, settled: set<string>, ids: seq<string>, r: Recovered)
    ensures r in ClassifyTasks(session, log, settled, ids) <==>
            r.task in ids && r.task !in settled && ClassifyTask(session, log, r.task) == Some(r)
  {
    if ids != [] {
      ClassifiedIff(session, log, settled, ids[1..], r);
    }
  }

  /** The classifier answers for exactly the tasks that have not ended, wait for
    * no human and were not just settled from a completion marker. */
  lemma ClassifyAnswersFor(session: string, log: Log, verdicts: Verdicts, r: Recovered)
    ensures r in Classify(session, log, false, verdicts) <==>
            && ClassifyTask(session, log, r.task) == Some(r)
            && !SettledByAny(log, verdicts, Dangling(log), r.task)
  {
    ClassifiedIff(session, log, Settlements(log, false, verdicts).settled, TaskIds(Active(log)), r);
    SettledAmongIff(log, verdicts, Dangling(log), {}, r.task);
    HasStatusIffListed(Active(log), r.task);
  }

  /** An event that starts and finishes no action. */
  predicate NoAction(e: Event) {
    !e.ActionStarted? && !e.ActionFinished?
  }

  // ---- one task's markers ----

  /** The actions of one task, in order. */
  function OfTask(actions: seq<Action>, id: string): seq<Action> {
    if actions == [] then [] else (if actions[0].task == id then [actions[0]] else []) + OfTask(actions[1..], id)
  }

  lemma {:induction false} OfTaskHolds(actions: seq<Action>, id: string, a: Action)
    ensures a in OfTask(actions, id) <==> a in actions && a.task == id
  {
    if actions != [] {
      OfTaskHolds(actions[1..], id, a);
    }
  }

  lemma {:induction false} OfTaskJoins(a: seq<Action>, b: seq<Action>, id: string)
    ensures OfTask(a + b, id) == OfTask(a, id) + OfTask(b, id)
  {
    if a == [] {
      assert a + b == b;
    } else {
      OfTaskJoins(a[1..], b, id);
      assert (a + b)[0] == a[0] && (a + b)[1..] == a[1..] + b;
      Regroup(if a[0].task == id then [a[0]] else [], OfTask(a[1..], id), OfTask(b, id));
    }
  }

  /** A search for one task's action looks at no other's. */
  lemma {:induction false} LastOfTask(actions: seq<Action>, id: string, sideEffecting: bool)
    ensures LastWith(actions, id, sideEffecting) == LastWith(OfTask(actions, id), id, sideEffecting)
    decreases |actions|
  {
    if actions != [] {
      var (init, last) := (actions[..|actions| - 1], actions[|actions| - 1]);
      LastOfTask(init, id, sideEffecting);
      OfTaskJoins(init, [last], id);
      assert actions == init + [last];
      if last.task == id {
        assert OfTask([last], id) == [last];
        assert OfTask(actions, id)[..|OfTask(actions, id)| - 1] == OfTask(init, id);
      } else {
        assert OfTask([last], id) == [] && OfTask(actions, id) == OfTask(init, id);
      }
    }
  }

  lemma {:induction false} UnfinishedAreStarted(started: seq<Action>, log: Log, a: Action)
    ensures a in Unfinished(started, log) ==> a in started
  {
    if started != [] {
      UnfinishedAreStarted(started[1..], log, a);
    }
  }

  /** The event touches no marker of the task. */
  predicate LeavesMarkers(started: seq<Action>, id: string, e: Event) {
    !e.ActionStarted? && (e.ActionFinished? ==> forall a | a in started && a.task == id :: a.marker != e.marker)
  }

  lemma {:induction false} UnfinishedElsewhere(started: seq<Action>, log: Log, e: Event, id: string)
    requires LeavesMarkers(started, id, e)
    ensures OfTask(Unfinished(started, log + [e]), id) == OfTask(Unfinished(started, log), id)
  {
    if started != [] {
      UnfinishedElsewhere(started[1..], log, e, id);
      var a := started[0];
      assert ActionFinished(a.marker) in log + [e] <==> ActionFinished(a.marker) in log || ActionFinished(a.marker) == e;
      var (x, y) := (if ActionFinished(a.marker) in log then [] else [a], if ActionFinished(a.marker) in log + [e] then [] else [a]);
      OfTaskJoins(x, Unfinished(started[1..], log), id);
      OfTaskJoins(y, Unfinished(started[1..], log + [e]), id);
      assert OfTask([a], id) == if a.task == id then [a] else [];
    }
  }

  /** Such an event leaves the task's dangling actions as they were. */
  lemma DanglingElsewhere(log: Log, e: Event, id: string)
    requires LeavesMarkers(StartedIn(log), id, e)
    ensures StartedIn(log + [e]) == StartedIn(log)
    ensures OfTask(Dangling(log + [e]), id) == OfTask(Dangling(log), id)
  {
    assert (log + [e])[..|log|] == log;
    UnfinishedElsewhere(StartedIn(log), log, e, id);
  }

  /** A marker that settling finishes belongs to a task that had ended or has
    * just been settled. */
  lemma {:induction false} FinishedMarkers(log: Log, verdicts: Verdicts, actions: seq<Action>, settled: set<string>, marker: string)
    requires ActionFinished(marker) in SettlementsAmong(log, verdicts, actions, settled).events
    ensures exists a :: a in actions && a.marker == marker && Through(log, verdicts, actions, settled, a)
  {
    var (a, rest) := (actions[0], actions[1..]);
    var now := if a.name == "completion_settlement" && a.task !in settled && Settles(log, verdicts, a).Some?
                  then settled + {a.task} else settled;
    SettlementsPrepare(log, verdicts, rest, now);
    if ActionFinished(marker) in SettlementsAmong(log, verdicts, rest, now).events {
      FinishedMarkers(log, verdicts, rest, now, marker);
      var b :| b in rest && b.marker == marker && Through(log, verdicts, rest, now, b);
      assert b in actions && Through(log, verdicts, actions, settled, b);
    } else {
      assert a in actions && a.marker == marker && Through(log, verdicts, actions, settled, a);
    }
  }

  predicate Through(log: Log, verdicts: Verdicts, actions: seq<Action>, settled: set<string>, a: Action) {
    var status := StatusIn(Active(log), a.task);
    a.task in SettlementsAmong(log, verdicts, actions, settled).settled || (status.Some? && Terminal(status.value))
  }

  lemma {:induction false} LostCallsAreNew(log: Log, actions: seq<Action>, e: Event)
    requires e in LostCallsAmong(log, actions)
    ensures e.UsageRecorded? && e.lost && e.call.Some? && !Accounted(log, e.call.value)
  {
    if e in LostCallsAmong(log, actions[1..]) {
      LostCallsAreNew(log, actions[1..], e);
    }
  }

  lemma {:induction false} LostCallsLeaveNone(log: Log, actions: seq<Action>, a: Action)
    requires a in actions && a.name == "model_call" && a.estimate.Some?
    ensures Accounted(log, a.marker) || exists e :: e in LostCallsAmong(log, actions) && e.call == Some(a.marker)
  {
    if a == actions[0] {
      if !Accounted(log, a.marker) {
        assert LostCallsAmong(log, actions)[0].call == Some(a.marker);
      }
    } else {
      LostCallsLeaveNone(log, actions[1..], a);
      if exists e :: e in LostCallsAmong(log, actions[1..]) && e.call == Some(a.marker) {
        var e :| e in LostCallsAmong(log, actions[1..]) && e.call == Some(a.marker);
        assert e in LostCallsAmong(log, actions);
      }
    }
  }

  /** However often the application starts, and whatever is appended meanwhile, a
    * model call lost to a crash is accounted for once: a marker that was
    * accounted for is never accounted for again, and after a classification
    * every dangling call that carries an estimate is. */
  lemma LostCallsAreCountedOnce(log: Log, more: Log, marker: string)
    ensures Accounted(log, marker) ==> forall e | e in LostCalls(log + more, false) :: e.call != Some(marker)
    ensures (exists a :: a in Dangling(log) && a.marker == marker && a.name == "model_call" && a.estimate.Some?) ==>
              Accounted(log + LostCalls(log, false), marker)
  {
    if Accounted(log, marker) {
      var known :| known in log && known.UsageRecorded? && known.call == Some(marker);
      assert known in log + more;
      forall e | e in LostCalls(log + more, false) ensures e.call != Some(marker) {
        LostCallsAreNew(log + more, Dangling(log + more), e);
      }
    }
    if exists a :: a in Dangling(log) && a.marker == marker && a.name == "model_call" && a.estimate.Some? {
      var a :| a in Dangling(log) && a.marker == marker && a.name == "model_call" && a.estimate.Some?;
      LostCallsLeaveNone(log, Dangling(log), a);
      AccountedStays(log, LostCalls(log, false), marker);
    }
  }

  lemma AccountedStays(log: Log, more: Log, marker: string)
    requires forall i | 0 <= i < |more| :: more[i].UsageRecorded?
    requires Accounted(log, marker) || exists e :: e in more && e.call == Some(marker)
    ensures Accounted(log + more, marker)
  {
    if Accounted(log, marker) {
      var e :| e in log && e.UsageRecorded? && e.call == Some(marker);
      assert e in log + more;
    } else {
      var e :| e in more && e.call == Some(marker);
      assert e in log + more;
    }
  }
}
