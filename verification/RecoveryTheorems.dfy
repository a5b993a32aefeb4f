/** Crash recovery over whole runs: sweeps, decisions, restarts, crashes in the
  * middle of any of them, and whatever other writers append meanwhile.
  */
module RecoveryTheorems {
  import opened Common
  import opened SessionLog
  import opened Recovery
  import opened RecoveryDesks
  import opened Runs

  datatype Desk = Desk(sessions: seq<string>, logs: Logs, outside: Outside, sweep: Option<Sweep>)

  type Form = map<string, string>

  datatype Request = List | Decide(form: Form) | Resolve(form: Form)

  datatype Step =
    | Serve(request: Request)
    | Crash(request: Request, kept: nat)         // the process dies after `kept` appends of the request
    | Restart
    | Others(session: string, event: Event)      // turns, workers, rewinds
    | Elsewhere(outside: Outside)                // workers start and stop, patches are decided
    | Sessions(sessions: seq<string>)

  // ---- what a request does: the methods of RecoveryDesk ----

  function Writes(d: Desk, r: Request): seq<Write> {
    match r
    case List => if d.sweep.None? then LaunchWrites(d.sessions, d.logs, d.outside) else []
    case Decide(form) => Decision(d.logs, d.outside, form).writes
    case Resolve(form) => Resolution(form).writes
  }

  function SweepOf(d: Desk): Sweep {
    match d.sweep
    case None => Launch(d.sessions, d.logs, d.outside)
    case Some(s) => s
  }

  function SweepAfter(d: Desk, r: Request): Option<Sweep> {
    match r
    case List => Some(SweepOf(d))
    case Decide(form) => if Decision(d.logs, d.outside, form).answer.Decided? then Forgotten(d.sweep, AddressOf(form)) else d.sweep
    case Resolve(form) => if Resolution(form).answer.Decided? then Forgotten(d.sweep, AddressOf(form)) else d.sweep
  }

  /** The cards a listing shows: `Open` of the logs as the sweep left them. */
  function Shown(d: Desk): seq<Card> {
    Open(Applied(d.logs, Writes(d, List)), SweepOf(d).recovered)
  }

  /** All of the request's appends, or the first ones. */
  function Kept(writes: seq<Write>, kept: nat): seq<Write> {
    if kept <= |writes| then writes[..kept] else writes
  }

  function After(d: Desk, step: Step): Desk {
    match step
    case Serve(r) => d.(logs := Applied(d.logs, Writes(d, r)), sweep := SweepAfter(d, r))
    case Crash(r, kept) =>
      d.(logs := Applied(d.logs, Kept(Writes(d, r), kept)), sweep := None)
    case Restart => d.(sweep := None)
    case Others(s, e) => d.(logs := Append(d.logs, Write(s, e)))
    case Elsewhere(outside) => d.(outside := outside)
    case Sessions(sessions) => d.(sessions := sessions)
  }

  predicate SettledAt(logs: Logs, at: Address) {
    Settled(LogOf(logs, at.0), at.1)
  }

  function StatusAt(logs: Logs, at: Address): Option<Status> {
    StatusIn(Active(LogOf(logs, at.0)), at.1)
  }

  predicate EndedAt(logs: Logs, at: Address) {
    StatusAt(logs, at).Some? && Terminal(StatusAt(logs, at).value)
  }

  predicate SupersededAt(logs: Logs, at: Address) {
    SupersededIn(Active(LogOf(logs, at.0)), at.1)
  }

  /** Terminal statuses and superseded tasks only grow. */
  ghost predicate Keeps(a: Logs, b: Logs) {
    && (forall at :: EndedAt(a, at) ==> EndedAt(b, at))
    && (forall at :: SupersededAt(a, at) ==> SupersededAt(b, at))
  }

  /** The other writers of a log reopen nothing. What can: `ReopensIff`. */
  ghost predicate Allowed(d: Desk, step: Step) {
    step.Others? ==> Keeps(d.logs, After(d, step).logs)
  }

  ghost predicate Run(ds: seq<Desk>, steps: seq<Step>) {
    && |ds| == |steps| + 1
    && forall i | 0 <= i < |steps| :: Allowed(ds[i], steps[i]) && ds[i + 1] == After(ds[i], steps[i])
  }

  // ---- recovery's own appends reopen nothing ----

  /** An append that ends or supersedes a task, records spending or closes a
    * marker. */
  predicate AlwaysGentle(w: Write) {
    w.event.TaskSuperseded? || w.event.UsageRecorded? || w.event.ActionFinished?
    || (w.event.TaskRecorded? && Terminal(w.event.status))
  }

  /** Such an append, or one that moves the status of a task that has not
    * ended. */
  predicate Gentle(logs: Logs, w: Write) {
    AlwaysGentle(w) || (w.event.TaskRecorded? && !EndedAt(logs, (w.session, w.event.id)))
  }

  /** What one append does to an address. */
  lemma AppendMovesAt(logs: Logs, w: Write, at: Address)
    requires !w.event.Rewound?
    ensures StatusAt(Append(logs, w), at) ==
            if w.session == at.0 && w.event.TaskRecorded? && w.event.id == at.1 then Some(w.event.status)
            else StatusAt(logs, at)
    ensures SupersededAt(Append(logs, w), at) <==>
            SupersededAt(logs, at) || (w.session == at.0 && w.event == TaskSuperseded(at.1))
  {
    AppendMoves(LogOf(logs, w.session), w.event, at.1);
  }

  lemma GentleKeeps(logs: Logs, w: Write)
    requires Gentle(logs, w)
    ensures Keeps(logs, Append(logs, w))
  {
    forall at | EndedAt(logs, at) ensures EndedAt(Append(logs, w), at) {
      AppendMovesAt(logs, w, at);
    }
    forall at | SupersededAt(logs, at) ensures SupersededAt(Append(logs, w), at) {
      AppendMovesAt(logs, w, at);
    }
  }

  predicate AllGentle(logs: Logs, writes: seq<Write>)
    decreases |writes|
  {
    writes == [] || (AllGentle(logs, writes[..|writes| - 1]) && Gentle(Applied(logs, writes[..|writes| - 1]), writes[|writes| - 1]))
  }

  lemma GentleKeepsOn(logs: Logs, before: Logs, w: Write)
    requires Keeps(logs, before) && Gentle(before, w)
    ensures Keeps(logs, Append(before, w))
  {
    GentleKeeps(before, w);
  }

  lemma {:induction false} AllGentleKeeps(logs: Logs, writes: seq<Write>)
    requires AllGentle(logs, writes)
    ensures Keeps(logs, Applied(logs, writes))
    decreases |writes|
  {
    if writes != [] {
      var init := writes[..|writes| - 1];
      AllGentleKeeps(logs, init);
      GentleKeepsOn(logs, Applied(logs, init), writes[|writes| - 1]);
    }
  }

  /** The first appends of a gentle list are gentle. */
  lemma {:induction false} GentlePrefix(logs: Logs, writes: seq<Write>, kept: nat)
    requires AllGentle(logs, writes) && kept <= |writes|
    ensures AllGentle(logs, writes[..kept])
    decreases |writes|
  {
    if kept == |writes| {
      assert writes[..kept] == writes;
    } else {
      GentlePrefix(logs, writes[..|writes| - 1], kept);
      assert writes[..|writes| - 1][..kept] == writes[..kept];
    }
  }

  lemma OneMoreGentle(logs: Logs, writes: seq<Write>, w: Write)
    requires AllGentle(logs, writes) && Gentle(Applied(logs, writes), w)
    ensures AllGentle(logs, writes + [w])
  {
    assert (writes + [w])[..|writes|] == writes;
  }

  lemma {:induction false} GentleJoins(logs: Logs, a: seq<Write>, b: seq<Write>)
    requires AllGentle(logs, a) && AllGentle(Applied(logs, a), b)
    ensures AllGentle(logs, a + b)
    decreases |b|
  {
    if b == [] {
      assert a + b == a;
    } else {
      var (init, last) := (b[..|b| - 1], b[|b| - 1]);
      GentleJoins(logs, a, init);
      AppliedJoins(logs, a, init);
      OneMoreGentle(logs, a + init, last);
      assert a + b == (a + init) + [last];
    }
  }

  lemma {:induction false} AllAlwaysGentle(logs: Logs, writes: seq<Write>)
    requires forall w | w in writes :: AlwaysGentle(w)
    ensures AllGentle(logs, writes)
    decreases |writes|
  {
    if writes != [] {
      assert writes[|writes| - 1] in writes;
      AllAlwaysGentle(logs, writes[..|writes| - 1]);
    }
  }

  lemma PreparingIsGentle(logs: Logs, outside: Outside, writes: seq<Write>)
    requires AllPreparing(logs, outside, writes)
    ensures AllGentle(logs, writes)
  {
    forall w | w in writes ensures AlwaysGentle(w) {
      var i :| 0 <= i < |writes| && writes[i] == w;
      assert PreparingWrite(logs, outside, writes[i]);
    }
    AllAlwaysGentle(logs, writes);
  }

  /** Classifying leaves a task it does not settle where it was. */
  lemma PreparingMovesNothing(logs: Logs, outside: Outside, writes: seq<Write>, at: Address)
    requires AllPreparing(logs, outside, writes) && !JustSettled(logs, outside, at)
    ensures StatusAt(Applied(logs, writes), at) == StatusAt(logs, at)
    ensures SupersededAt(Applied(logs, writes), at) <==> SupersededAt(logs, at)
  {
    PreparingDisturbsNothing(logs, outside, writes, at);
  }

  /** A task the sweep may resume has a status, and it is not terminal. */
  predicate Going(logs: Logs, task: Recovered) {
    var status := StatusAt(logs, (task.session, task.task));
    status.Some? && !Terminal(status.value) && !status.value.WaitingForApproval?
  }

  lemma ResumeKeepsGoing(logs: Logs, task: Recovered, other: Recovered)
    requires Going(logs, other)
    ensures Going(Append(logs, AutoResume(task)), other)
  {
    AppendMovesAt(logs, AutoResume(task), (other.session, other.task));
  }

  lemma OneResumeKeepsGoing(logs: Logs, task: Recovered, other: Recovered)
    requires Going(logs, other)
    ensures Going(Applied(logs, WriteOf(logs, task)), other)
  {
    if WriteOf(logs, task) != [] {
      ResumeKeepsGoing(logs, task, other);
      assert [AutoResume(task)][..0] == [] && Applied(logs, []) == logs;
    }
  }

  lemma {:induction false} SweepKeepsGoing(logs: Logs, tasks: seq<Recovered>, other: Recovered)
    requires Going(logs, other)
    ensures Going(Applied(logs, SweepWrites(logs, tasks)), other)
    decreases |tasks|
  {
    if tasks != [] {
      var init := tasks[..|tasks| - 1];
      SweepKeepsGoing(logs, init, other);
      var before := Applied(logs, SweepWrites(logs, init));
      AppliedJoins(logs, SweepWrites(logs, init), WriteOf(before, tasks[|tasks| - 1]));
      OneResumeKeepsGoing(before, tasks[|tasks| - 1], other);
    }
  }

  lemma ResumeIsGentle(logs: Logs, task: Recovered)
    requires Going(logs, task)
    ensures AllGentle(logs, WriteOf(logs, task))
  {
    if WriteOf(logs, task) != [] {
      OneIsGentle(logs, AutoResume(task));
    }
  }

  lemma {:induction false} SweepIsGentle(logs: Logs, tasks: seq<Recovered>)
    requires forall task | task in tasks :: Going(logs, task)
    ensures AllGentle(logs, SweepWrites(logs, tasks))
    decreases |tasks|
  {
    if tasks != [] {
      var init := tasks[..|tasks| - 1];
      SweepIsGentle(logs, init);
      var task := tasks[|tasks| - 1];
      assert task in tasks;
      SweepKeepsGoing(logs, init, task);
      var before := Applied(logs, SweepWrites(logs, init));
      ResumeIsGentle(before, task);
      GentleJoins(logs, SweepWrites(logs, init), WriteOf(before, task));
    }
  }

  lemma {:induction false} ClassifiedAll(sessions: seq<string>, logs: Logs, outside: Outside, task: Recovered)
    ensures task in ClassifyAll(sessions, logs, outside) <==>
            && task.session in sessions && task.session !in outside.live
            && !JustSettled(logs, outside, (task.session, task.task))
            && ClassifyTask(task.session, LogOf(logs, task.session), task.task) == Some(task)
  {
    if sessions != [] {
      ClassifiedAll(sessions[1..], logs, outside, task);
      ClassifiedHere(sessions[0], logs, outside, task);
    }
  }

  lemma ClassifiedHere(session: string, logs: Logs, outside: Outside, task: Recovered)
    ensures task in ClassifiedIn(session, logs, outside) <==>
            && task.session == session && session !in outside.live
            && !JustSettled(logs, outside, (session, task.task))
            && ClassifyTask(session, LogOf(logs, session), task.task) == Some(task)
  {
    var log := LogOf(logs, session);
    ClassifiedIff(session, log, Settlements(log, session in outside.live, outside.verdicts).settled, TaskIds(Active(log)), task);
    HasStatusIffListed(Active(log), task.task);
  }

  /** What a launch classifies is still going on when it sweeps. */
  lemma ClassifiedAreGoing(d: Desk, task: Recovered)
    requires task in ClassifyAll(d.sessions, d.logs, d.outside)
    ensures Going(Applied(d.logs, PrepareAll(d.sessions, d.logs, d.outside)), task)
  {
    ClassifiedAll(d.sessions, d.logs, d.outside, task);
    AllPreparedIsPreparing(d.sessions, d.logs, d.outside);
    PreparingMovesNothing(d.logs, d.outside, PrepareAll(d.sessions, d.logs, d.outside), (task.session, task.task));
  }

  /** The logs of a launch before it fails what cannot be shown. */
  function SweptLogs(d: Desk): Logs {
    Applied(d.logs, SweepingWrites(d.sessions, d.logs, d.outside))
  }

  function FailsOf(d: Desk): seq<Write> {
    FailWrites(Waiting(d.sessions, SweptLogs(d), d.outside), d.outside.unreadable)
  }

  lemma {:induction false} FailsAreOfWaiting(waiting: seq<Address>, unreadable: set<Address>, w: Write)
    requires w in FailWrites(waiting, unreadable)
    ensures w.event.TaskRecorded? && w.event.status == Failed && w.event.prompt == "" && (w.session, w.event.id) in waiting
  {
    if w in FailWrites(waiting[1..], unreadable) {
      FailsAreOfWaiting(waiting[1..], unreadable, w);
    }
  }

  lemma FailsAreGentle(logs: Logs, waiting: seq<Address>, unreadable: set<Address>)
    ensures AllGentle(logs, FailWrites(waiting, unreadable))
  {
    forall w | w in FailWrites(waiting, unreadable) ensures AlwaysGentle(w) {
      FailsAreOfWaiting(waiting, unreadable, w);
    }
    AllAlwaysGentle(logs, FailWrites(waiting, unreadable));
  }

  lemma {:induction false} AppendsElsewhere(logs: Logs, writes: seq<Write>, at: Address)
    requires forall w | w in writes :: w.event.TaskRecorded? && (w.session, w.event.id) != at
    ensures StatusAt(Applied(logs, writes), at) == StatusAt(logs, at)
    ensures SupersededAt(Applied(logs, writes), at) <==> SupersededAt(logs, at)
    decreases |writes|
  {
    if writes != [] {
      var (init, w) := (writes[..|writes| - 1], writes[|writes| - 1]);
      assert w in writes && forall x | x in init :: x in writes;
      AppendsElsewhere(logs, init, at);
      AppendMovesAt(Applied(logs, init), w, at);
    }
  }

  /** The failing touches waiting tasks only. */
  lemma FailsTouchWaitingOnly(d: Desk, at: Address)
    requires StatusAt(SweptLogs(d), at) != Some(WaitingForApproval)
    ensures var last := Applied(d.logs, LaunchWrites(d.sessions, d.logs, d.outside));
            StatusAt(last, at) == StatusAt(SweptLogs(d), at) && (SupersededAt(last, at) <==> SupersededAt(SweptLogs(d), at))
  {
    var waiting := Waiting(d.sessions, SweptLogs(d), d.outside);
    if at in waiting {
      WaitingWaits(d.sessions, SweptLogs(d), d.outside, at);
    }
    forall w | w in FailsOf(d) ensures w.event.TaskRecorded? && (w.session, w.event.id) != at {
      FailsAreOfWaiting(waiting, d.outside.unreadable, w);
    }
    AppendsElsewhere(SweptLogs(d), FailsOf(d), at);
    AppliedJoins(d.logs, SweepingWrites(d.sessions, d.logs, d.outside), FailsOf(d));
  }

  lemma LaunchIsGentle(d: Desk)
    ensures AllGentle(d.logs, LaunchWrites(d.sessions, d.logs, d.outside))
  {
    SweepingIsGentle(d);
    FailsAreGentle(SweptLogs(d), Waiting(d.sessions, SweptLogs(d), d.outside), d.outside.unreadable);
    GentleJoins(d.logs, SweepingWrites(d.sessions, d.logs, d.outside), FailsOf(d));
  }

  lemma SweepingIsGentle(d: Desk)
    ensures AllGentle(d.logs, SweepingWrites(d.sessions, d.logs, d.outside))
  {
    var prepared := PrepareAll(d.sessions, d.logs, d.outside);
    AllPreparedIsPreparing(d.sessions, d.logs, d.outside);
    PreparingIsGentle(d.logs, d.outside, prepared);
    var (after, tasks) := (Applied(d.logs, prepared), ClassifyAll(d.sessions, d.logs, d.outside));
    forall task | task in tasks ensures Going(after, task) {
      ClassifiedAreGoing(d, task);
    }
    SweepIsGentle(after, tasks);
    GentleJoins(d.logs, prepared, SweepWrites(after, tasks));
  }

  lemma OneIsGentle(logs: Logs, w: Write)
    requires Gentle(logs, w)
    ensures AllGentle(logs, [w])
  {
    assert [w][..0] == [] && Applied(logs, []) == logs && AllGentle(logs, []);
  }

  lemma SettlingIsGentle(logs: Logs, task: Recovered, decision: string, prompt: string)
    requires Going(logs, task)
    ensures AllGentle(logs, Settle(task, decision, prompt).writes)
  {
    var writes := Settle(task, decision, prompt).writes;
    if |writes| > 0 {
      OneIsGentle(logs, writes[0]);
    }
    if |writes| == 1 {
      assert writes == [writes[0]];
    } else if |writes| == 2 {
      OneIsGentle(Applied(logs, [writes[0]]), writes[1]);
      GentleJoins(logs, [writes[0]], [writes[1]]);
      assert writes == [writes[0]] + [writes[1]];
    }
  }

  lemma DecisionIsGentle(logs: Logs, outside: Outside, session: string, id: string, decision: string)
    ensures AllGentle(logs, DecisionAt(logs, outside, session, id, decision).writes)
  {
    var prepared := Prepared(session, logs, outside);
    PreparedIsPreparing(session, logs, outside);
    PreparingIsGentle(logs, outside, prepared);
    FoundIsThere(session, logs, outside, id);
    match Find(ClassifiedIn(session, logs, outside), id)
    case None =>
    case Some(task) =>
      var prompt := PromptIn(Active(LogOf(logs, session)), id);
      PreparingMovesNothing(logs, outside, prepared, (session, id));
      SettlingIsGentle(Applied(logs, prepared), task, decision, prompt);
      GentleJoins(logs, prepared, Settle(task, decision, prompt).writes);
  }

  lemma RequestIsGentle(d: Desk, r: Request)
    ensures AllGentle(d.logs, Writes(d, r))
  {
    match r
    case List => LaunchIsGentle(d);
    case Decide(form) =>
      if RequiredForm(form, "session_id").Some? && RequiredForm(form, "task_id").Some? && RequiredForm(form, "decision").Some? {
        DecisionIsGentle(d.logs, d.outside, form["session_id"], form["task_id"], form["decision"]);
      }
    case Resolve(form) => AllAlwaysGentle(d.logs, Resolution(form).writes);
  }

  lemma ServingKeepsSettled(d: Desk, r: Request, kept: nat)
    ensures Keeps(d.logs, Applied(d.logs, Writes(d, r)))
    ensures Keeps(d.logs, Applied(d.logs, Kept(Writes(d, r), kept)))
  {
    var writes := Writes(d, r);
    RequestIsGentle(d, r);
    GentlePrefix(d.logs, writes, if kept <= |writes| then kept else 0);
    AllGentleKeeps(d.logs, writes);
    AllGentleKeeps(d.logs, Kept(writes, kept));
  }

  lemma ServeKeepsSettled(d: Desk, r: Request)
    ensures Keeps(d.logs, After(d, Serve(r)).logs)
  {
    ServingKeepsSettled(d, r, 0);
  }

  lemma CrashKeepsSettled(d: Desk, r: Request, kept: nat)
    ensures Keeps(d.logs, After(d, Crash(r, kept)).logs)
  {
    ServingKeepsSettled(d, r, kept);
  }

  /** No step reopens a settled task: not a sweep, not a decision, and not a
    * crash between any two of their appends. */
  lemma StepKeepsSettled(d: Desk, step: Step)
    requires Allowed(d, step)
    ensures Keeps(d.logs, After(d, step).logs)
  {
    match step
    case Serve(r) => ServeKeepsSettled(d, r);
    case Crash(r, kept) => CrashKeepsSettled(d, r, kept);
    case _ =>
  }

  lemma StepOf(ds: seq<Desk>, steps: seq<Step>, k: nat)
    requires Run(ds, steps) && k < |steps|
    ensures Allowed(ds[k], steps[k]) && ds[k + 1] == After(ds[k], steps[k])
  {
  }

  lemma StepSettled(d: Desk, step: Step, at: Address)
    requires Allowed(d, step) && SettledAt(d.logs, at)
    ensures SettledAt(After(d, step).logs, at)
  {
    StepKeepsSettled(d, step);
    assert EndedAt(d.logs, at) || SupersededAt(d.logs, at);
    assert EndedAt(After(d, step).logs, at) || SupersededAt(After(d, step).logs, at);
  }

  lemma SettledNext(ds: seq<Desk>, steps: seq<Step>, k: nat, at: Address)
    requires Run(ds, steps) && k < |steps| && SettledAt(ds[k].logs, at)
    ensures SettledAt(ds[k + 1].logs, at)
  {
    StepOf(ds, steps, k);
    StepSettled(ds[k], steps[k], at);
  }

  lemma SettledStays(ds: seq<Desk>, steps: seq<Step>, i: nat, j: nat, at: Address)
    requires Run(ds, steps) && i <= j < |ds| && SettledAt(ds[i].logs, at)
    ensures SettledAt(ds[j].logs, at)
  {
    forall k | i <= k < j && SettledAt(ds[k].logs, at) ensures SettledAt(ds[k + 1].logs, at) {
      SettledNext(ds, steps, k, at);
    }
    HoldsLater((d: Desk) => SettledAt(d.logs, at), ds, i, j);
  }

  // ---- what is listed ----

  lemma {:induction false} OpenHolds(logs: Logs, cards: seq<Card>, card: Card)
    ensures card in Open(logs, cards) <==> card in cards && !SettledAt(logs, (card.task.session, card.task.task))
    decreases |cards|
  {
    if cards != [] {
      var (init, last) := (cards[..|cards| - 1], cards[|cards| - 1]);
      OpenHolds(logs, init, card);
      assert cards == init + [last];
      var more := if SettledAt(logs, (last.task.session, last.task.task)) then [] else [last];
      assert Open(logs, cards) == Open(logs, init) + more;
    }
  }

  predicate Lists(d: Desk, at: Address) {
    exists card :: card in Shown(d) && (card.task.session, card.task.task) == at
  }

  /** A settled task is never listed again, however often the application is
    * restarted, crashes or sweeps. */
  lemma SettledIsNeverListed(ds: seq<Desk>, steps: seq<Step>, i: nat, j: nat, at: Address)
    requires Run(ds, steps) && i <= j < |ds| && SettledAt(ds[i].logs, at)
    ensures !Lists(ds[j], at)
  {
    SettledStays(ds, steps, i, j, at);
    StepKeepsSettled(ds[j], Serve(List));
    var logs := Applied(ds[j].logs, Writes(ds[j], List));
    assert EndedAt(ds[j].logs, at) || SupersededAt(ds[j].logs, at);
    assert EndedAt(logs, at) || SupersededAt(logs, at);
    forall card | card in Shown(ds[j]) ensures (card.task.session, card.task.task) != at {
      OpenHolds(logs, SweepOf(ds[j]).recovered, card);
    }
  }

  // ---- decisions ----

  predicate Accepted(d: Desk, form: Form) {
    Decision(d.logs, d.outside, form).answer.Decided?
  }

  /** What a decision needs of the state it finds, in full. */
  lemma AcceptedIff(d: Desk, form: Form)
    ensures Accepted(d, form) <==>
            && RequiredForm(form, "session_id").Some? && RequiredForm(form, "task_id").Some?
            && RequiredForm(form, "decision").Some?
            && var (session, id, decision) := (form["session_id"], form["task_id"], form["decision"]);
               && session !in d.outside.live && !JustSettled(d.logs, d.outside, (session, id))
               && !SettledAt(d.logs, (session, id))
               && Going(d.logs, Recovered(session, id, false, None, Created, false))
               && (decision == "mark_failed" || decision == "abandon"
                   || (decision == "resume" && !ClassifyTask(session, LogOf(d.logs, session), id).value.unknown))
  {
    if RequiredForm(form, "session_id").Some? && RequiredForm(form, "task_id").Some? && RequiredForm(form, "decision").Some? {
      FoundIsThere(form["session_id"], d.logs, d.outside, form["task_id"]);
    }
  }

  predicate Settling(w: Write) {
    (w.event.TaskRecorded? && Terminal(w.event.status)) || w.event.TaskSuperseded?
  }

  lemma SettlingSettles(logs: Logs, writes: seq<Write>)
    requires writes != [] && Settling(writes[|writes| - 1])
    ensures var w := writes[|writes| - 1]; SettledAt(Applied(logs, writes), (w.session, w.event.id))
  {
    var w := writes[|writes| - 1];
    AppendMoves(LogOf(Applied(logs, writes[..|writes| - 1]), w.session), w.event, w.event.id);
  }

  /** An accepted decision in two parts: what classifying appends, then what the
    * decision does to the classifier's record of the task. */
  lemma DecisionShape(logs: Logs, outside: Outside, session: string, id: string, decision: string)
    returns (prepared: seq<Write>, outcome: Outcome)
    requires DecisionAt(logs, outside, session, id, decision).answer.Decided?
    ensures DecisionAt(logs, outside, session, id, decision) == Outcome(prepared + outcome.writes, outcome.answer)
    ensures AllPreparing(logs, outside, prepared) && !JustSettled(logs, outside, (session, id))
    ensures Ends(outcome.writes, session, id, decision)
  {
    FoundIsThere(session, logs, outside, id);
    prepared := Prepared(session, logs, outside);
    PreparedIsPreparing(session, logs, outside);
    var task := Find(ClassifiedIn(session, logs, outside), id).value;
    outcome := Settle(task, decision, PromptIn(Active(LogOf(logs, session)), id));
  }

  /** The appends of an accepted decision on a task: one that settles it, after
    * the status move of a resume. */
  predicate Ends(writes: seq<Write>, session: string, id: string, decision: string) {
    match decision
    case "resume" =>
      writes == [Write(session, TaskRecorded(id, PreparingContext, "")), Write(session, TaskSuperseded(id))]
    case "mark_failed" => writes == [Write(session, TaskRecorded(id, Failed, ""))]
    case "abandon" => writes == [Write(session, TaskRecorded(id, Cancelled, ""))]
    case _ => false
  }

  /** The last append of an accepted decision is the one that settles its task. */
  lemma DecisionEnds(logs: Logs, outside: Outside, form: Form)
    requires Decision(logs, outside, form).answer.Decided?
    ensures var writes := Decision(logs, outside, form).writes;
            && writes != [] && Settling(writes[|writes| - 1])
            && (writes[|writes| - 1].session, writes[|writes| - 1].event.id) == AddressOf(form)
  {
    var prepared, outcome := DecisionShape(logs, outside, form["session_id"], form["task_id"], form["decision"]);
  }

  lemma DecisionSettles(d: Desk, form: Form)
    requires Accepted(d, form)
    ensures SettledAt(After(d, Serve(Decide(form))).logs, AddressOf(form))
  {
    DecisionEnds(d.logs, d.outside, form);
    SettlingSettles(d.logs, Writes(d, Decide(form)));
  }

  predicate Forms(form: Form, session: string, id: string, decision: string) {
    && RequiredForm(form, "session_id") == Some(session) && RequiredForm(form, "task_id") == Some(id)
    && RequiredForm(form, "decision") == Some(decision)
  }

  lemma DecisionAtLeaves(logs: Logs, outside: Outside, session: string, id: string, decision: string)
    requires DecisionAt(logs, outside, session, id, decision).answer.Decided?
    ensures var after := Applied(logs, DecisionAt(logs, outside, session, id, decision).writes);
            && (decision == "mark_failed" ==> StatusAt(after, (session, id)) == Some(Failed))
            && (decision == "abandon" ==> StatusAt(after, (session, id)) == Some(Cancelled))
            && (decision == "resume" ==> SupersededAt(after, (session, id)))
  {
    var writes := DecisionAt(logs, outside, session, id, decision).writes;
    LastWriteOf(logs, outside, session, id, decision);
    LastMoves(logs, writes, (session, id));
  }

  lemma LastMoves(logs: Logs, writes: seq<Write>, at: Address)
    requires writes != [] && !writes[|writes| - 1].event.Rewound? && writes[|writes| - 1].session == at.0
    ensures var (e, after) := (writes[|writes| - 1].event, Applied(logs, writes));
            && (e.TaskRecorded? && e.id == at.1 ==> StatusAt(after, at) == Some(e.status))
            && (e == TaskSuperseded(at.1) ==> SupersededAt(after, at))
  {
    AppendMovesAt(Applied(logs, writes[..|writes| - 1]), writes[|writes| - 1], at);
  }

  /** What each decision leaves in the log: a failure, a cancellation, or a task
    * handed to a later turn. */
  lemma DecisionLeaves(logs: Logs, outside: Outside, form: Form, session: string, id: string, decision: string)
    requires Forms(form, session, id, decision) && Decision(logs, outside, form).answer.Decided?
    ensures var after := Applied(logs, Decision(logs, outside, form).writes);
            && (decision == "mark_failed" ==> StatusAt(after, (session, id)) == Some(Failed))
            && (decision == "abandon" ==> StatusAt(after, (session, id)) == Some(Cancelled))
            && (decision == "resume" ==> SupersededAt(after, (session, id)))
  {
    assert Decision(logs, outside, form) == DecisionAt(logs, outside, session, id, decision);
    DecisionAtLeaves(logs, outside, session, id, decision);
  }

  lemma LastWriteOf(logs: Logs, outside: Outside, session: string, id: string, decision: string)
    requires DecisionAt(logs, outside, session, id, decision).answer.Decided?
    ensures var writes := DecisionAt(logs, outside, session, id, decision).writes;
            && writes != []
            && (decision == "mark_failed" ==> writes[|writes| - 1] == Write(session, TaskRecorded(id, Failed, "")))
            && (decision == "abandon" ==> writes[|writes| - 1] == Write(session, TaskRecorded(id, Cancelled, "")))
            && (decision == "resume" ==> writes[|writes| - 1] == Write(session, TaskSuperseded(id)))
            && forall i | 0 <= i < |writes| - 1 :: Leaves(writes[i], (session, id))
  {
    var prepared, outcome := DecisionShape(logs, outside, session, id, decision);
    var writes := prepared + outcome.writes;
    forall i | 0 <= i < |writes| - 1 ensures Leaves(writes[i], (session, id)) {
      if i < |prepared| {
        assert PreparingWrite(logs, outside, prepared[i]);
      }
    }
  }

  /** A question is open: its task is going on and no later turn has it. */
  predicate OpenAt(logs: Logs, at: Address) {
    Going(logs, Recovered(at.0, at.1, false, None, Created, false)) && !SupersededAt(logs, at)
  }

  /** An append that leaves the question open. */
  predicate Leaves(w: Write, at: Address) {
    !w.event.Rewound? && (w.session == at.0 ==>
      w.event != TaskSuperseded(at.1) && (w.event.TaskRecorded? && w.event.id == at.1 ==> w.event.status == PreparingContext))
  }

  lemma {:induction false} StaysOpen(logs: Logs, writes: seq<Write>, at: Address)
    requires OpenAt(logs, at) && forall i | 0 <= i < |writes| :: Leaves(writes[i], at)
    ensures OpenAt(Applied(logs, writes), at)
    decreases |writes|
  {
    if writes != [] {
      var (before, w) := (Applied(logs, writes[..|writes| - 1]), writes[|writes| - 1]);
      StaysOpen(logs, writes[..|writes| - 1], at);
      AppendMovesAt(before, w, at);
    }
  }

  /** A process that dies anywhere inside a decision leaves the question open
    * unless the last append was made: a prompt is handed back only for a task
    * already settled on disk, and a lost decision can be made again. */
  lemma InterruptedDecisionLeavesTheQuestionOpen(d: Desk, form: Form, kept: nat)
    requires Accepted(d, form) && kept < |Writes(d, Decide(form))|
    ensures OpenAt(After(d, Crash(Decide(form), kept)).logs, AddressOf(form))
  {
    AcceptedIff(d, form);
    LastWriteOf(d.logs, d.outside, form["session_id"], form["task_id"], form["decision"]);
    assert !SettledAt(d.logs, AddressOf(form)) && !SupersededAt(d.logs, AddressOf(form));
    StaysOpen(d.logs, Writes(d, Decide(form))[..kept], AddressOf(form));
  }

  /** Over any run a task is decided at most once, so it is resumed at most
    * once: every later decision on it is refused. */
  lemma OneDecisionPerTask(ds: seq<Desk>, steps: seq<Step>, i: nat, j: nat, first: Form, second: Form)
    requires Run(ds, steps) && i < j < |steps|
    requires steps[i] == Serve(Decide(first)) && Accepted(ds[i], first)
    requires steps[j] == Serve(Decide(second)) && AddressOf(second) == AddressOf(first)
    ensures !Accepted(ds[j], second)
  {
    DecisionSettles(ds[i], first);
    assert ds[i + 1] == After(ds[i], steps[i]);
    SettledStays(ds, steps, i + 1, j, AddressOf(first));
    AcceptedIff(ds[j], second);
  }

  /** A decided task is never listed again. */
  lemma DecidedIsNeverListed(ds: seq<Desk>, steps: seq<Step>, i: nat, j: nat, form: Form)
    requires Run(ds, steps) && i < j < |ds| && i < |steps|
    requires steps[i] == Serve(Decide(form)) && Accepted(ds[i], form)
    ensures !Lists(ds[j], AddressOf(form))
  {
    DecisionSettles(ds[i], form);
    assert ds[i + 1] == After(ds[i], steps[i]);
    SettledIsNeverListed(ds, steps, i + 1, j, AddressOf(form));
  }

  // ---- a fresh launch lists every open question ----

  predicate HasCard(cards: seq<Card>, at: Address) {
    exists card :: card in cards && (card.task.session, card.task.task) == at
  }

  predicate HasTask(tasks: seq<Recovered>, at: Address) {
    exists task :: task in tasks && (task.session, task.task) == at
  }

  lemma ResumeSupersedesNothing(logs: Logs, task: Recovered, at: Address)
    ensures SupersededAt(Applied(logs, WriteOf(logs, task)), at) <==> SupersededAt(logs, at)
  {
    if WriteOf(logs, task) != [] {
      assert [AutoResume(task)][..0] == [] && Applied(logs, []) == logs;
      AppendMoves(LogOf(logs, task.session), AutoResume(task).event, at.1);
    }
  }

  lemma {:induction false} SweepSupersedesNothing(logs: Logs, tasks: seq<Recovered>, at: Address)
    ensures SupersededAt(Applied(logs, SweepWrites(logs, tasks)), at) <==> SupersededAt(logs, at)
    decreases |tasks|
  {
    if tasks != [] {
      var init := tasks[..|tasks| - 1];
      SweepSupersedesNothing(logs, init, at);
      var before := Applied(logs, SweepWrites(logs, init));
      AppliedJoins(logs, SweepWrites(logs, init), WriteOf(before, tasks[|tasks| - 1]));
      ResumeSupersedesNothing(before, tasks[|tasks| - 1], at);
    }
  }

  lemma OneMoreTask(tasks: seq<Recovered>, task: Recovered, at: Address)
    ensures HasTask(tasks + [task], at) <==> HasTask(tasks, at) || (task.session, task.task) == at
  {
    if HasTask(tasks, at) {
      var other :| other in tasks && (other.session, other.task) == at;
      assert other in tasks + [task];
    }
    assert task in tasks + [task];
  }

  lemma OneMoreCard(logs: Logs, tasks: seq<Recovered>, task: Recovered, at: Address)
    ensures HasCard(SweepCards(logs, tasks + [task]), at) <==>
            HasCard(SweepCards(logs, tasks), at) || ((task.session, task.task) == at && !SupersededAt(logs, at))
  {
    assert (tasks + [task])[..|tasks|] == tasks;
    SweepSupersedesNothing(logs, tasks, at);
    CardOrNot(SweepCards(logs, tasks), Applied(logs, SweepWrites(logs, tasks)), task, at);
  }

  /** The sweep has a card for the address exactly when it has its task and no
    * later turn took it. */
  predicate CardIffTask(logs: Logs, tasks: seq<Recovered>, at: Address) {
    HasCard(SweepCards(logs, tasks), at) <==> HasTask(tasks, at) && !SupersededAt(logs, at)
  }

  lemma SweepHoldsOneMore(logs: Logs, tasks: seq<Recovered>, task: Recovered, at: Address)
    requires CardIffTask(logs, tasks, at)
    ensures CardIffTask(logs, tasks + [task], at)
  {
    OneMoreCard(logs, tasks, task, at);
    OneMoreTask(tasks, task, at);
  }

  lemma NoTaskNoCard(logs: Logs, at: Address)
    ensures CardIffTask(logs, [], at)
  {
  }

  lemma {:induction false} SweepHolds(logs: Logs, tasks: seq<Recovered>, at: Address)
    ensures CardIffTask(logs, tasks, at)
    decreases |tasks|
  {
    if tasks == [] {
      NoTaskNoCard(logs, at);
    } else {
      var (init, task) := (tasks[..|tasks| - 1], tasks[|tasks| - 1]);
      assert tasks == init + [task];
      SweepHolds(logs, init, at);
      SweepHoldsOneMore(logs, init, task, at);
    }
  }

  lemma CardOrNot(cards: seq<Card>, logs: Logs, task: Recovered, at: Address)
    ensures HasCard(cards + CardOf(logs, task), at) <==>
            HasCard(cards, at) || ((task.session, task.task) == at && !SupersededAt(logs, at))
  {
    var more := CardOf(logs, task);
    if more != [] && (task.session, task.task) == at {
      assert more[0] in cards + more;
    }
    if HasCard(cards, at) {
      var card :| card in cards && (card.task.session, card.task.task) == at;
      assert card in cards + more;
    }
  }

  /** The first listing after a launch shows exactly the tasks of idle sessions
    * that have a status, have not ended, wait for nobody, were not handed to a
    * later turn and were not just settled from a completion marker. */
  lemma LaunchListsExactly(d: Desk, session: string, id: string)
    requires d.sweep == None
    ensures Lists(d, (session, id)) <==>
            && session in d.sessions && session !in d.outside.live && !SupersededAt(d.logs, (session, id))
            && !JustSettled(d.logs, d.outside, (session, id))
            && Going(d.logs, Recovered(session, id, false, None, Created, false))
  {
    var at := (session, id);
    var prepared := PrepareAll(d.sessions, d.logs, d.outside);
    var (after, tasks) := (Applied(d.logs, prepared), ClassifyAll(d.sessions, d.logs, d.outside));
    var last := Applied(d.logs, Writes(d, List));
    AllPreparedIsPreparing(d.sessions, d.logs, d.outside);
    PreparingDisturbsNothing(d.logs, d.outside, prepared, at);
    AppliedJoins(d.logs, prepared, SweepWrites(after, tasks));
    assert SweptLogs(d) == Applied(after, SweepWrites(after, tasks));
    SweepHolds(after, tasks, at);
    SweepSupersedesNothing(after, tasks, at);
    TasksAreGoing(d, session, id);
    var cards := SweepCards(after, tasks);
    if HasCard(cards, at) {
      SweepKeepsGoing(after, tasks, Recovered(session, id, false, None, Created, false));
      FailsTouchWaitingOnly(d, at);
      assert !SettledAt(last, at);
      var card :| card in cards && (card.task.session, card.task.task) == at;
      OpenHolds(last, cards, card);
    }
    if Lists(d, at) {
      var card :| card in Shown(d) && (card.task.session, card.task.task) == at;
      OpenHolds(last, cards, card);
      assert HasCard(cards, at);
    }
  }

  /** An end among gentle appends is final. */
  lemma {:induction false} EndsWithin(logs: Logs, writes: seq<Write>, i: nat)
    requires AllGentle(logs, writes) && i < |writes|
    requires writes[i].event.TaskRecorded? && Terminal(writes[i].event.status)
    ensures EndedAt(Applied(logs, writes), (writes[i].session, writes[i].event.id))
    decreases |writes|
  {
    var (init, last) := (writes[..|writes| - 1], writes[|writes| - 1]);
    assert writes[..|writes| - 1] == init;
    if i == |writes| - 1 {
      AppendMovesAt(Applied(logs, init), last, (last.session, last.event.id));
    } else {
      assert forall k | 0 <= k < |init| :: init[..k] == writes[..k];
      EndsWithin(logs, init, i);
      GentleKeeps(Applied(logs, init), last);
    }
  }

  lemma {:induction false} PreparedAmongAll(sessions: seq<string>, logs: Logs, outside: Outside, session: string, w: Write)
    requires session in sessions && w in Prepared(session, logs, outside)
    ensures w in PrepareAll(sessions, logs, outside)
  {
    if session != sessions[0] {
      PreparedAmongAll(sessions[1..], logs, outside, session, w);
    }
  }

  lemma SettlementIsPrepared(session: string, logs: Logs, outside: Outside, id: string) returns (w: Write)
    requires JustSettled(logs, outside, (session, id))
    ensures w in Prepared(session, logs, outside) && w.session == session
    ensures w.event.TaskRecorded? && w.event.id == id && Terminal(w.event.status)
  {
    var (log, live) := (LogOf(logs, session), session in outside.live);
    SettledIsRecorded(log, outside.verdicts, Dangling(log), {}, id);
    var events := Preparation(log, live, outside.verdicts);
    var e :| e in events && e.TaskRecorded? && e.id == id && Terminal(e.status);
    var k :| 0 <= k < |events| && events[k] == e;
    w := Write(session, e);
    assert Prepared(session, logs, outside)[k] == w;
  }

  lemma PreparedIsLaunched(d: Desk, w: Write) returns (i: nat)
    requires w in PrepareAll(d.sessions, d.logs, d.outside)
    ensures i < |LaunchWrites(d.sessions, d.logs, d.outside)| && LaunchWrites(d.sessions, d.logs, d.outside)[i] == w
  {
    var prepared := PrepareAll(d.sessions, d.logs, d.outside);
    var swept := SweepWrites(Applied(d.logs, prepared), ClassifyAll(d.sessions, d.logs, d.outside));
    i := AmongTheFirst(prepared, swept, FailsOf(d), w);
  }

  lemma AmongTheFirst(a: seq<Write>, b: seq<Write>, c: seq<Write>, w: Write) returns (i: nat)
    requires w in a
    ensures i < |(a + b) + c| && ((a + b) + c)[i] == w
  {
    i :| i < |a| && a[i] == w;
  }

  /** A crash between a turn's answer and its final status is closed by the next
    * launch: the task ends with the verdict found again, and is listed as
    * interrupted neither then nor later. */
  lemma SettledCrashIsClosed(d: Desk, at: Address)
    requires d.sweep == None && at.0 in d.sessions && JustSettled(d.logs, d.outside, at)
    ensures EndedAt(After(d, Serve(List)).logs, at) && !Lists(d, at)
  {
    var w := SettlementIsPrepared(at.0, d.logs, d.outside, at.1);
    PreparedAmongAll(d.sessions, d.logs, d.outside, at.0, w);
    var i := PreparedIsLaunched(d, w);
    LaunchIsGentle(d);
    EndsWithin(d.logs, LaunchWrites(d.sessions, d.logs, d.outside), i);
    LaunchListsExactly(d, at.0, at.1);
  }

  lemma TasksAreGoing(d: Desk, session: string, id: string)
    ensures HasTask(ClassifyAll(d.sessions, d.logs, d.outside), (session, id)) <==>
            && session in d.sessions && session !in d.outside.live && !JustSettled(d.logs, d.outside, (session, id))
            && Going(d.logs, Recovered(session, id, false, None, Created, false))
  {
    var tasks := ClassifyAll(d.sessions, d.logs, d.outside);
    var found := ClassifyTask(session, LogOf(d.logs, session), id);
    if found.Some? {
      ClassifiedAll(d.sessions, d.logs, d.outside, found.value);
    }
    if HasTask(tasks, (session, id)) {
      var task :| task in tasks && (task.session, task.task) == (session, id);
      ClassifiedAll(d.sessions, d.logs, d.outside, task);
    }
  }

  // ---- what a card offers ----

  lemma {:induction false} CardsAreDescribed(logs: Logs, tasks: seq<Recovered>, card: Card)
    requires card in SweepCards(logs, tasks)
    ensures card.task in tasks && (card.offersResume <==> !card.task.unknown && card.prompt != "")
    decreases |tasks|
  {
    var (init, task) := (tasks[..|tasks| - 1], tasks[|tasks| - 1]);
    if card in SweepCards(logs, init) {
      CardsAreDescribed(logs, init, card);
    }
  }

  /** A task's markers as a sweep leaves them: the same, if no append touches
    * them. */
  predicate SameMarkers(a: Log, b: Log, id: string) {
    StartedIn(b) == StartedIn(a) && OfTask(Dangling(b), id) == OfTask(Dangling(a), id)
  }

  lemma SameEvidence(a: Log, b: Log, id: string)
    requires SameMarkers(a, b, id)
    ensures Evidence(b, id) == Evidence(a, id) && LastWith(Dangling(b), id, true) == LastWith(Dangling(a), id, true)
  {
    LastOfTask(Dangling(a), id, true);
    LastOfTask(Dangling(b), id, true);
    LastOfTask(Dangling(a), id, false);
    LastOfTask(Dangling(b), id, false);
  }

  /** No append of the list touches a marker of the task. */
  predicate AllLeaveMarkers(started: seq<Action>, writes: seq<Write>, at: Address) {
    forall w | w in writes && w.session == at.0 :: LeavesMarkers(started, at.1, w.event)
  }

  lemma {:induction false} MarkersStay(logs: Logs, writes: seq<Write>, at: Address)
    requires AllLeaveMarkers(StartedIn(LogOf(logs, at.0)), writes, at)
    ensures SameMarkers(LogOf(logs, at.0), LogOf(Applied(logs, writes), at.0), at.1)
    decreases |writes|
  {
    if writes != [] {
      var (before, w) := (Applied(logs, writes[..|writes| - 1]), writes[|writes| - 1]);
      MarkersStay(logs, writes[..|writes| - 1], at);
      assert w in writes;
      if w.session == at.0 {
        DanglingElsewhere(LogOf(before, at.0), w.event, at.1);
      }
    }
  }

  lemma {:induction false} SweepActsOnNothing(logs: Logs, tasks: seq<Recovered>)
    ensures forall i | 0 <= i < |SweepWrites(logs, tasks)| :: NoAction(SweepWrites(logs, tasks)[i].event)
    decreases |tasks|
  {
    if tasks != [] {
      SweepActsOnNothing(logs, tasks[..|tasks| - 1]);
    }
  }

  /** The ids of action markers are fresh, so a marker is one task's. */
  predicate OneTaskPerMarker(log: Log) {
    forall a, b | a in StartedIn(log) && b in StartedIn(log) && a.marker == b.marker :: a.task == b.task
  }

  /** Preparing a session finishes no marker of a task it leaves going. */
  lemma PreparationLeavesMarkers(log: Log, live: bool, verdicts: Verdicts, id: string, e: Event)
    requires OneTaskPerMarker(log) && e in Preparation(log, live, verdicts)
    requires id !in Settlements(log, live, verdicts).settled
    requires StatusIn(Active(log), id).Some? && !Terminal(StatusIn(Active(log), id).value)
    ensures LeavesMarkers(StartedIn(log), id, e)
  {
    PreparationPrepares(log, live, verdicts, e);
    if e.ActionFinished? {
      assert !live;
      FinishedMarkers(log, verdicts, Dangling(log), {}, e.marker);
      var a :| a in Dangling(log) && a.marker == e.marker && Through(log, verdicts, Dangling(log), {}, a);
      UnfinishedAreStarted(StartedIn(log), log, a);
    }
  }

  lemma {:induction false} PrepareAllLeavesMarkers(sessions: seq<string>, logs: Logs, outside: Outside, at: Address)
    requires OneTaskPerMarker(LogOf(logs, at.0)) && !JustSettled(logs, outside, at)
    requires StatusAt(logs, at).Some? && !Terminal(StatusAt(logs, at).value)
    ensures AllLeaveMarkers(StartedIn(LogOf(logs, at.0)), PrepareAll(sessions, logs, outside), at)
  {
    if sessions != [] {
      PrepareAllLeavesMarkers(sessions[1..], logs, outside, at);
      var (log, live) := (LogOf(logs, sessions[0]), sessions[0] in outside.live);
      var writes := Prepared(sessions[0], logs, outside);
      forall w | w in writes && w.session == at.0 ensures LeavesMarkers(StartedIn(log), at.1, w.event) {
        PreparationLeavesMarkers(log, live, outside.verdicts, at.1, w.event);
      }
    }
  }

  lemma LaunchLeavesMarkers(d: Desk, at: Address)
    requires OneTaskPerMarker(LogOf(d.logs, at.0)) && !JustSettled(d.logs, d.outside, at)
    requires StatusAt(d.logs, at).Some? && !Terminal(StatusAt(d.logs, at).value)
    ensures SameMarkers(LogOf(d.logs, at.0), LogOf(Applied(d.logs, LaunchWrites(d.sessions, d.logs, d.outside)), at.0), at.1)
  {
    var prepared := PrepareAll(d.sessions, d.logs, d.outside);
    PrepareAllLeavesMarkers(d.sessions, d.logs, d.outside, at);
    SweepActsOnNothing(Applied(d.logs, prepared), ClassifyAll(d.sessions, d.logs, d.outside));
    var swept := SweepWrites(Applied(d.logs, prepared), ClassifyAll(d.sessions, d.logs, d.outside));
    forall w | w in swept && w.session == at.0 ensures LeavesMarkers(StartedIn(LogOf(d.logs, at.0)), at.1, w.event) {
      var i :| 0 <= i < |swept| && swept[i] == w;
    }
    forall w | w in FailsOf(d) ensures w.event.TaskRecorded? {
      FailsAreOfWaiting(Waiting(d.sessions, SweptLogs(d), d.outside), d.outside.unreadable, w);
    }
    MarkersStay(d.logs, prepared + swept + FailsOf(d), at);
  }

  lemma OneSweptMovesStatus(logs: Logs, task: Recovered, at: Address)
    ensures var (s, t) := (StatusAt(logs, at), StatusAt(Applied(logs, WriteOf(logs, task)), at));
            t == s || (t == Some(PreparingContext) && (task.session, task.task) == at && task.auto)
  {
    if WriteOf(logs, task) != [] {
      assert [AutoResume(task)][..0] == [] && Applied(logs, []) == logs;
      AppendMovesAt(logs, AutoResume(task), at);
    }
  }

  /** A sweep moves a task's status only by resuming it. */
  lemma {:induction false} SweepMovesStatus(logs: Logs, tasks: seq<Recovered>, at: Address)
    ensures var (s, t) := (StatusAt(logs, at), StatusAt(Applied(logs, SweepWrites(logs, tasks)), at));
            t == s || (t == Some(PreparingContext)
                       && exists task :: task in tasks && (task.session, task.task) == at && task.auto)
    decreases |tasks|
  {
    if tasks != [] {
      var (init, task) := (tasks[..|tasks| - 1], tasks[|tasks| - 1]);
      SweepMovesStatus(logs, init, at);
      var before := Applied(logs, SweepWrites(logs, init));
      AppliedJoins(logs, SweepWrites(logs, init), WriteOf(before, task));
      OneSweptMovesStatus(before, task, at);
      assert task in tasks;
      assert forall x | x in init :: x in tasks;
    }
  }

  /** A status that the sweep leaves readable was readable before. */
  lemma LaunchReadsNoMore(d: Desk, at: Address)
    requires !JustSettled(d.logs, d.outside, at) && StatusAt(d.logs, at).Some? && StatusAt(d.logs, at).value.Unrecognised?
    ensures StatusAt(Applied(d.logs, LaunchWrites(d.sessions, d.logs, d.outside)), at) == StatusAt(d.logs, at)
  {
    var prepared := PrepareAll(d.sessions, d.logs, d.outside);
    var (after, tasks) := (Applied(d.logs, prepared), ClassifyAll(d.sessions, d.logs, d.outside));
    AllPreparedIsPreparing(d.sessions, d.logs, d.outside);
    PreparingMovesNothing(d.logs, d.outside, prepared, at);
    SweepMovesStatus(after, tasks, at);
    AppliedJoins(d.logs, prepared, SweepWrites(after, tasks));
    forall task | task in tasks && (task.session, task.task) == at ensures !task.auto {
      ClassifiedAll(d.sessions, d.logs, d.outside, task);
    }
    FailsTouchWaitingOnly(d, at);
  }

  /** A task that a launch did not settle is not settled by classifying it once
    * more. */
  lemma NotSettledLater(d: Desk, at: Address)
    requires OneTaskPerMarker(LogOf(d.logs, at.0)) && !JustSettled(d.logs, d.outside, at)
    requires StatusAt(d.logs, at).Some? && !Terminal(StatusAt(d.logs, at).value)
    ensures !JustSettled(Applied(d.logs, LaunchWrites(d.sessions, d.logs, d.outside)), d.outside, at)
  {
    var after := Applied(d.logs, LaunchWrites(d.sessions, d.logs, d.outside));
    var (log, later, verdicts) := (LogOf(d.logs, at.0), LogOf(after, at.0), d.outside.verdicts);
    LaunchLeavesMarkers(d, at);
    SameEvidence(log, later, at.1);
    SettledAmongIff(log, verdicts, Dangling(log), {}, at.1);
    SettledAmongIff(later, verdicts, Dangling(later), {}, at.1);
    if StatusAt(d.logs, at).value.Unrecognised? {
      LaunchReadsNoMore(d, at);
    }
    if SettledByAny(later, verdicts, Dangling(later), at.1) {
      var a :| a in Dangling(later) && SettledBy(later, verdicts, a, at.1);
      OfTaskHolds(Dangling(later), at.1, a);
      OfTaskHolds(Dangling(log), at.1, a);
      assert at.0 !in d.outside.live ==> !SettledBy(log, verdicts, a, at.1);
    }
  }

  /** What a fresh card offers is what the endpoint then does: `resume` is
    * offered exactly when it would be accepted and there is a prompt to send. */
  lemma CardOffersWhatIsAccepted(d: Desk, card: Card, form: Form)
    requires d.sweep == None && card in Shown(d) && Forms(form, card.task.session, card.task.task, "resume")
    requires OneTaskPerMarker(LogOf(d.logs, card.task.session))
    ensures card.offersResume <==> Accepted(After(d, Serve(List)), form) && card.prompt != ""
  {
    var at := (card.task.session, card.task.task);
    var after := After(d, Serve(List));
    OpenHolds(after.logs, SweepOf(d).recovered, card);
    CardsAreDescribed(Applied(d.logs, PrepareAll(d.sessions, d.logs, d.outside)),
                      ClassifyAll(d.sessions, d.logs, d.outside), card);
    ClassifiedAll(d.sessions, d.logs, d.outside, card.task);
    LaunchLeavesMarkers(d, at);
    SameEvidence(LogOf(d.logs, at.0), LogOf(after.logs, at.0), at.1);
    NotSettledLater(d, at);
    StillGoing(d, card.task);
    GoingIsClassified(after.logs, card.task);
    AcceptedIff(after, form);
  }

  /** What a task recorded without a prompt reads as. */
  lemma PromptlessTask(id: string, log: Log)
    requires log == [TaskRecorded(id, WaitingForModel, "")]
    ensures Active(log) == log && StatusIn(log, id) == Some(WaitingForModel) && PromptIn(log, id) == ""
    ensures StartedIn(log) == [] && Dangling(log) == [] && LastRewind(log) == None
  {
    assert log[..0] == [];
  }

  /** A task recorded without a prompt: its card offers no resume, and the
    * endpoint accepts one all the same and hands back nothing to send. */
  lemma EndpointResumesWithoutAPrompt() returns (d: Desk, form: Form)
    ensures Forms(form, "s", "t", "resume") && Accepted(d, form)
    ensures Decision(d.logs, d.outside, form).answer == Decided("")
  {
    var log := [TaskRecorded("t", WaitingForModel, "")];
    d := Desk(["s"], map["s" := log], Outside({}, {}, {}, map[]), None);
    form := map["session_id" := "s", "task_id" := "t", "decision" := "resume"];
    PromptlessTask("t", log);
    FoundIsThere("s", d.logs, d.outside, "t");
    assert Evidence(log, "t") == None;
    assert Decision(d.logs, d.outside, form) == DecisionAt(d.logs, d.outside, "s", "t", "resume");
  }

  lemma GoingIsClassified(logs: Logs, task: Recovered)
    requires Going(logs, task)
    ensures var (log, found) := (LogOf(logs, task.session), ClassifyTask(task.session, LogOf(logs, task.session), task.task));
            found.Some? && (found.value.unknown <==>
                            Evidence(log, task.task).Some? && Evidence(log, task.task).value.sideEffecting)
  {
  }

  lemma StillGoing(d: Desk, task: Recovered)
    requires d.sweep == None && Going(d.logs, task) && !JustSettled(d.logs, d.outside, (task.session, task.task))
    ensures Going(After(d, Serve(List)).logs, task)
  {
    var prepared := PrepareAll(d.sessions, d.logs, d.outside);
    var (after, tasks) := (Applied(d.logs, prepared), ClassifyAll(d.sessions, d.logs, d.outside));
    AllPreparedIsPreparing(d.sessions, d.logs, d.outside);
    PreparingMovesNothing(d.logs, d.outside, prepared, (task.session, task.task));
    SweepKeepsGoing(after, tasks, task);
    AppliedJoins(d.logs, prepared, SweepWrites(after, tasks));
    assert SweptLogs(d) == Applied(after, SweepWrites(after, tasks));
    FailsTouchWaitingOnly(d, (task.session, task.task));
  }

  // ---- reattached approvals ----

  lemma {:induction false} WaitingAmongWaits(session: string, log: Log, decided: set<Address>, ids: seq<string>, at: Address)
    requires at in WaitingAmong(session, log, decided, ids)
    ensures at.0 == session && StatusIn(Active(log), at.1) == Some(WaitingForApproval) && at !in decided
  {
    if at in WaitingAmong(session, log, decided, ids[1..]) {
      WaitingAmongWaits(session, log, decided, ids[1..], at);
    }
  }

  lemma {:induction false} WaitingWaits(sessions: seq<string>, logs: Logs, outside: Outside, at: Address)
    requires at in Waiting(sessions, logs, outside)
    ensures StatusAt(logs, at) == Some(WaitingForApproval) && at !in outside.decided && at.0 !in outside.live
  {
    if at in Waiting(sessions[1..], logs, outside) {
      WaitingWaits(sessions[1..], logs, outside, at);
    } else {
      var log := LogOf(logs, sessions[0]);
      WaitingAmongWaits(sessions[0], log, outside.decided, TaskIds(Active(log)), at);
    }
  }

  lemma {:induction false} KeepHolds(addresses: seq<Address>, gone: Address, at: Address)
    ensures at in KeepAddresses(addresses, gone) <==> at in addresses && at != gone
    decreases |addresses|
  {
    if addresses != [] {
      KeepHolds(addresses[..|addresses| - 1], gone, at);
      assert addresses == addresses[..|addresses| - 1] + [addresses[|addresses| - 1]];
    }
  }

  /** The task has ended, and this process no longer offers its approval. */
  predicate Withdrawn(d: Desk, at: Address) {
    EndedAt(d.logs, at) && (d.sweep.Some? ==> at !in d.sweep.value.approvals)
  }

  /** A launch reattaches no approval of a task that ended. */
  lemma EndedIsNotReattached(d: Desk, at: Address)
    requires EndedAt(d.logs, at)
    ensures at !in Launch(d.sessions, d.logs, d.outside).approvals
  {
    SweepingIsGentle(d);
    var first := SweepingWrites(d.sessions, d.logs, d.outside);
    AllGentleKeeps(d.logs, first);
    assert EndedAt(SweptLogs(d), at);
    if at in Waiting(d.sessions, SweptLogs(d), d.outside) {
      WaitingWaits(d.sessions, SweptLogs(d), d.outside, at);
    }
  }

  lemma WithdrawnStays(d: Desk, step: Step, at: Address)
    requires Allowed(d, step) && Withdrawn(d, at)
    ensures Withdrawn(After(d, step), at) && at !in SweepOf(d).approvals
  {
    StepKeepsSettled(d, step);
    EndedIsNotReattached(d, at);
    if step.Serve? && !step.request.List? && d.sweep.Some? {
      KeepHolds(d.sweep.value.approvals, AddressOf(step.request.form), at);
    }
  }

  lemma CancelledEnds(logs: Logs, at: Address)
    ensures EndedAt(Applied(logs, [Write(at.0, TaskRecorded(at.1, Cancelled, ""))]), at)
  {
    var w := Write(at.0, TaskRecorded(at.1, Cancelled, ""));
    AppendMoves(LogOf(logs, at.0), w.event, at.1);
    assert [w][..0] == [] && Applied(logs, []) == logs;
  }

  lemma ResolveWithdraws(d: Desk, form: Form)
    requires Resolution(form).answer.Decided?
    ensures Withdrawn(After(d, Serve(Resolve(form))), AddressOf(form))
  {
    CancelledEnds(d.logs, AddressOf(form));
    if d.sweep.Some? {
      KeepHolds(d.sweep.value.approvals, AddressOf(form), AddressOf(form));
    }
  }

  lemma WithdrawnNext(ds: seq<Desk>, steps: seq<Step>, k: nat, at: Address)
    requires Run(ds, steps) && k < |steps| && Withdrawn(ds[k], at)
    ensures Withdrawn(ds[k + 1], at)
  {
    StepOf(ds, steps, k);
    WithdrawnStays(ds[k], steps[k], at);
  }

  lemma WithdrawnFrom(ds: seq<Desk>, steps: seq<Step>, i: nat, j: nat, at: Address)
    requires Run(ds, steps) && i <= j < |ds| && Withdrawn(ds[i], at)
    ensures Withdrawn(ds[j], at)
  {
    forall k | i <= k < j && Withdrawn(ds[k], at) ensures Withdrawn(ds[k + 1], at) {
      WithdrawnNext(ds, steps, k, at);
    }
    HoldsLater((d: Desk) => Withdrawn(d, at), ds, i, j);
  }

  /** An approval answered after a crash is never reattached again, in this
    * process or any later one: the command it ran cannot be offered twice. */
  lemma ResolvedIsNeverReattached(ds: seq<Desk>, steps: seq<Step>, i: nat, j: nat, form: Form)
    requires Run(ds, steps) && i < j < |ds| && i < |steps|
    requires steps[i] == Serve(Resolve(form)) && Resolution(form).answer.Decided?
    ensures AddressOf(form) !in SweepOf(ds[j]).approvals
  {
    ResolveWithdraws(ds[i], form);
    assert ds[i + 1] == After(ds[i], steps[i]);
    WithdrawnFrom(ds, steps, i + 1, j, AddressOf(form));
    WithdrawnStays(ds[j], Restart, AddressOf(form));
  }

  // ---- the prompt a resume hands back ----

  function PromptAt(logs: Logs, at: Address): string {
    PromptIn(Active(LogOf(logs, at.0)), at.1)
  }

  predicate AllQuiet(writes: seq<Write>) {
    forall i | 0 <= i < |writes| :: Quiet(writes[i].event)
  }

  lemma {:induction false} QuietKeepsPrompt(logs: Logs, writes: seq<Write>, at: Address)
    requires AllQuiet(writes)
    ensures PromptAt(Applied(logs, writes), at) == PromptAt(logs, at)
    decreases |writes|
  {
    if writes != [] {
      var (before, w) := (writes[..|writes| - 1], writes[|writes| - 1]);
      QuietKeepsPrompt(logs, before, at);
      QuietKeeps(LogOf(Applied(logs, before), w.session), w.event, at.1);
    }
  }

  lemma {:induction false} SweepIsQuiet(logs: Logs, tasks: seq<Recovered>)
    ensures AllQuiet(SweepWrites(logs, tasks))
    decreases |tasks|
  {
    if tasks != [] {
      SweepIsQuiet(logs, tasks[..|tasks| - 1]);
    }
  }

  lemma FailsAreQuiet(d: Desk)
    ensures AllQuiet(FailsOf(d))
  {
    forall i | 0 <= i < |FailsOf(d)| ensures Quiet(FailsOf(d)[i].event) {
      FailsAreOfWaiting(Waiting(d.sessions, SweptLogs(d), d.outside), d.outside.unreadable, FailsOf(d)[i]);
    }
  }

  lemma QuietJoins(prepared: seq<Write>, swept: seq<Write>, fails: seq<Write>)
    requires AllQuiet(swept) && AllQuiet(fails)
    ensures AllQuiet(swept + fails) && prepared + (swept + fails) == (prepared + swept) + fails
  {
  }

  lemma LaunchInTwoParts(d: Desk) returns (prepared: seq<Write>, rest: seq<Write>)
    ensures LaunchWrites(d.sessions, d.logs, d.outside) == prepared + rest
    ensures AllPreparing(d.logs, d.outside, prepared) && AllQuiet(rest)
  {
    AllPreparedIsPreparing(d.sessions, d.logs, d.outside);
    prepared := PrepareAll(d.sessions, d.logs, d.outside);
    var swept := SweepWrites(Applied(d.logs, prepared), ClassifyAll(d.sessions, d.logs, d.outside));
    SweepIsQuiet(Applied(d.logs, prepared), ClassifyAll(d.sessions, d.logs, d.outside));
    FailsAreQuiet(d);
    QuietJoins(prepared, swept, FailsOf(d));
    rest := swept + FailsOf(d);
  }

  lemma DecisionInTwoParts(logs: Logs, outside: Outside, session: string, id: string, decision: string)
    returns (prepared: seq<Write>, rest: seq<Write>)
    ensures DecisionAt(logs, outside, session, id, decision).writes == prepared + rest
    ensures AllPreparing(logs, outside, prepared) && AllQuiet(rest)
  {
    prepared := Prepared(session, logs, outside);
    PreparedIsPreparing(session, logs, outside);
    rest := DecisionAt(logs, outside, session, id, decision).writes[|prepared|..];
  }

  /** What a request appends: first what classifying appends, then events that
    * record no prompt. */
  lemma WritesInTwoParts(d: Desk, r: Request) returns (prepared: seq<Write>, rest: seq<Write>)
    ensures Writes(d, r) == prepared + rest && AllPreparing(d.logs, d.outside, prepared) && AllQuiet(rest)
  {
    prepared, rest := [], Writes(d, r);
    match r
    case List =>
      if d.sweep.None? {
        prepared, rest := LaunchInTwoParts(d);
      }
    case Decide(form) =>
      if RequiredForm(form, "session_id").Some? && RequiredForm(form, "task_id").Some? && RequiredForm(form, "decision").Some? {
        prepared, rest := DecisionInTwoParts(d.logs, d.outside, form["session_id"], form["task_id"], form["decision"]);
      }
    case Resolve(_) =>
  }

  lemma PartsKeepPrompt(logs: Logs, outside: Outside, prepared: seq<Write>, rest: seq<Write>, kept: nat, at: Address)
    requires AllPreparing(logs, outside, prepared) && AllQuiet(rest) && kept <= |prepared + rest|
    ensures PromptAt(Applied(logs, (prepared + rest)[..kept]), at) == PromptAt(logs, at)
  {
    if kept <= |prepared| {
      assert (prepared + rest)[..kept] == prepared[..kept];
      PreparingDisturbsNothing(logs, outside, prepared[..kept], at);
    } else {
      var more := rest[..kept - |prepared|];
      assert (prepared + rest)[..kept] == prepared + more;
      AppliedJoins(logs, prepared, more);
      PreparingDisturbsNothing(logs, outside, prepared, at);
      QuietKeepsPrompt(Applied(logs, prepared), more, at);
    }
  }

  lemma RequestKeepsPrompts(d: Desk, r: Request, kept: nat, at: Address)
    requires kept <= |Writes(d, r)|
    ensures PromptAt(Applied(d.logs, Writes(d, r)[..kept]), at) == PromptAt(d.logs, at)
  {
    var prepared, rest := WritesInTwoParts(d, r);
    PartsKeepPrompt(d.logs, d.outside, prepared, rest, kept, at);
  }

  lemma ServingKeepsPrompts(d: Desk, r: Request, kept: nat, at: Address)
    ensures PromptAt(Applied(d.logs, Kept(Writes(d, r), kept)), at) == PromptAt(d.logs, at)
    ensures PromptAt(Applied(d.logs, Writes(d, r)), at) == PromptAt(d.logs, at)
  {
    var writes := Writes(d, r);
    RequestKeepsPrompts(d, r, if kept <= |writes| then kept else |writes|, at);
    RequestKeepsPrompts(d, r, |writes|, at);
    assert writes[..|writes|] == writes;
  }

  lemma ServeKeepsPrompt(d: Desk, r: Request, at: Address)
    ensures PromptAt(After(d, Serve(r)).logs, at) == PromptAt(d.logs, at)
  {
    ServingKeepsPrompts(d, r, 0, at);
  }

  lemma CrashKeepsPrompt(d: Desk, r: Request, kept: nat, at: Address)
    ensures PromptAt(After(d, Crash(r, kept)).logs, at) == PromptAt(d.logs, at)
  {
    ServingKeepsPrompts(d, r, kept, at);
  }

  lemma PromptKept(d: Desk, step: Step, at: Address)
    requires step.Others? ==> Quiet(step.event)
    ensures PromptAt(After(d, step).logs, at) == PromptAt(d.logs, at)
  {
    match step
    case Serve(r) => ServeKeepsPrompt(d, r, at);
    case Crash(r, kept) => CrashKeepsPrompt(d, r, kept, at);
    case Others(s, e) => QuietKeeps(LogOf(d.logs, s), e, at.1);
    case _ =>
  }

  lemma PromptNext(ds: seq<Desk>, steps: seq<Step>, k: nat, at: Address)
    requires Run(ds, steps) && k < |steps|
    requires steps[k].Others? ==> Quiet(steps[k].event)
    ensures PromptAt(ds[k + 1].logs, at) == PromptAt(ds[k].logs, at)
  {
    StepOf(ds, steps, k);
    PromptKept(ds[k], steps[k], at);
  }

  lemma PromptStays(ds: seq<Desk>, steps: seq<Step>, i: nat, j: nat, at: Address)
    requires Run(ds, steps) && i <= j < |ds|
    requires forall k | i <= k < j :: steps[k].Others? ==> Quiet(steps[k].event)
    ensures PromptAt(ds[j].logs, at) == PromptAt(ds[i].logs, at)
  {
    var prompt := PromptAt(ds[i].logs, at);
    forall k | i <= k < j && PromptAt(ds[k].logs, at) == prompt ensures PromptAt(ds[k + 1].logs, at) == prompt {
      PromptNext(ds, steps, k, at);
    }
    HoldsLater((d: Desk) => PromptAt(d.logs, at) == prompt, ds, i, j);
  }

  /** However many sweeps, automatic resumes, refused decisions, crashes and
    * blank status events lie between, a resume hands back the prompt that was
    * on record: resuming never re-sends an empty request for a real one. */
  lemma ResumeReturnsThePrompt(ds: seq<Desk>, steps: seq<Step>, i: nat, j: nat, form: Form)
    requires Run(ds, steps) && i <= j < |steps|
    requires forall k | i <= k < j :: steps[k].Others? ==> Quiet(steps[k].event)
    requires steps[j] == Serve(Decide(form)) && Accepted(ds[j], form) && form["decision"] == "resume"
    ensures Decision(ds[j].logs, ds[j].outside, form).answer == Decided(PromptAt(ds[i].logs, AddressOf(form)))
  {
    PromptStays(ds, steps, i, j, AddressOf(form));
    var session := form["session_id"];
    FoundIsThere(session, ds[j].logs, ds[j].outside, form["task_id"]);
  }

  // ---- what reopens a settled task ----

  predicate SettledIn(events: Log, id: string) {
    var status := StatusIn(events, id);
    (status.Some? && Terminal(status.value)) || SupersededIn(events, id)
  }

  lemma RewoundActive(log: Log, through: nat)
    ensures Active(log + [Rewound(through)]) == if through <= |log| then log[..through] else log + [Rewound(through)]
  {
    var longer := log + [Rewound(through)];
    assert longer[|log| + 1..] == [];
    if through <= |log| {
      assert longer[..through] == log[..through];
    } else {
      assert longer[..|log| + 1] == longer;
    }
  }

  /** One appended event reopens a settled task exactly when it moves the status
    * of a task that was not superseded away from a terminal one, or rewinds to a
    * point where the task was not settled. */
  lemma ReopensIff(log: Log, e: Event, id: string)
    requires Settled(log, id)
    ensures !Settled(log + [e], id) <==>
            || (e.TaskRecorded? && e.id == id && !Terminal(e.status) && !SupersededIn(Active(log), id))
            || (e.Rewound? && !SettledIn(if e.through <= |log| then log[..e.through] else log, id))
  {
    if e.Rewound? {
      RewoundActive(log, e.through);
      assert (log + [e])[..|log|] == log;
    } else {
      AppendMoves(log, e, id);
    }
  }
}
