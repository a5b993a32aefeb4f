/** What a launch appends and shows, in terms of the logs it found. */
module LaunchTheorems {
  import opened Common
  import opened SessionLog
  import opened SessionTheorems
  import opened Recovery
  import opened RecoveryDesks
  import opened RecoveryTheorems

  // ---- what is resumed ----

  lemma SafeIsClassified(session: string, log: Log, id: string)
    requires SafeToResume(log, id)
    ensures ClassifyTask(session, log, id).Some? && ClassifyTask(session, log, id).value.task == id
    ensures ClassifyTask(session, log, id).value.session == session
  {
  }

  predicate Resumes(logs: Logs, tasks: seq<Recovered>, w: Write) {
    exists task :: task in tasks && ResumesOne(logs, task, w)
  }

  predicate ResumesOne(logs: Logs, task: Recovered, w: Write) {
    task.auto && w == AutoResume(task) && !SupersededAt(logs, (task.session, task.task))
  }

  /** The sweep writes this exactly when it resumes a task so. */
  predicate WritesIffResumes(logs: Logs, tasks: seq<Recovered>, w: Write) {
    w in SweepWrites(logs, tasks) <==> Resumes(logs, tasks, w)
  }

  lemma {:induction false} SweepResumes(logs: Logs, tasks: seq<Recovered>, w: Write)
    ensures WritesIffResumes(logs, tasks, w)
    decreases |tasks|
  {
    if tasks == [] {
      NothingSwept(logs, w);
    } else {
      var (init, task) := (tasks[..|tasks| - 1], tasks[|tasks| - 1]);
      assert tasks == init + [task];
      SweepResumes(logs, init, w);
      OneMoreSwept(logs, init, task, w);
    }
  }

  lemma NothingSwept(logs: Logs, w: Write)
    ensures WritesIffResumes(logs, [], w)
  {
  }

  lemma OneMoreSwept(logs: Logs, tasks: seq<Recovered>, task: Recovered, w: Write)
    requires WritesIffResumes(logs, tasks, w)
    ensures WritesIffResumes(logs, tasks + [task], w)
  {
    assert (tasks + [task])[..|tasks|] == tasks;
    OneSweptResumes(logs, Applied(logs, SweepWrites(logs, tasks)), tasks, task, w);
    OneMoreResumes(logs, tasks, task, w);
  }

  lemma OneSweptResumes(logs: Logs, before: Logs, tasks: seq<Recovered>, task: Recovered, w: Write)
    requires before == Applied(logs, SweepWrites(logs, tasks))
    ensures w in WriteOf(before, task) <==> ResumesOne(logs, task, w)
  {
    SweepSupersedesNothing(logs, tasks, (task.session, task.task));
  }

  lemma OneMoreResumes(logs: Logs, tasks: seq<Recovered>, task: Recovered, w: Write)
    ensures Resumes(logs, tasks + [task], w) <==> Resumes(logs, tasks, w) || ResumesOne(logs, task, w)
  {
    if Resumes(logs, tasks, w) {
      var one :| one in tasks && ResumesOne(logs, one, w);
      assert one in tasks + [task];
    }
    assert task in tasks + [task];
  }

  /** The launch itself takes the task up again. */
  ghost predicate ResumedAtLaunch(d: Desk, at: Address) {
    && at.0 in d.sessions && at.0 !in d.outside.live
    && SafeToResume(LogOf(d.logs, at.0), at.1)
    && !SupersededAt(d.logs, at) && !JustSettled(d.logs, d.outside, at)
  }

  lemma ClassifiedResumesIff(d: Desk, at: Address, w: Write)
    requires w.session == at.0 && w.event.TaskRecorded? && w.event.id == at.1
    ensures Resumes(Applied(d.logs, PrepareAll(d.sessions, d.logs, d.outside)), ClassifyAll(d.sessions, d.logs, d.outside), w) <==>
            ResumedAtLaunch(d, at) && w.event == TaskRecorded(at.1, PreparingContext, "")
  {
    var (log, tasks) := (LogOf(d.logs, at.0), ClassifyAll(d.sessions, d.logs, d.outside));
    var prepared := PrepareAll(d.sessions, d.logs, d.outside);
    var after := Applied(d.logs, prepared);
    AllPreparedIsPreparing(d.sessions, d.logs, d.outside);
    PreparingDisturbsNothing(d.logs, d.outside, prepared, at);
    assert SupersededAt(after, at) <==> SupersededAt(d.logs, at);
    if Resumes(after, tasks, w) {
      var task :| task in tasks && ResumesOne(after, task, w);
      ClassifiedAll(d.sessions, d.logs, d.outside, task);
      ClassifiedAsSafeIff(at.0, log, task);
    }
    if ResumedAtLaunch(d, at) {
      SafeIsClassified(at.0, log, at.1);
      var task := ClassifyTask(at.0, log, at.1).value;
      ClassifiedAsSafeIff(at.0, log, task);
      ClassifiedAll(d.sessions, d.logs, d.outside, task);
      assert w.event == TaskRecorded(at.1, PreparingContext, "") ==> ResumesOne(after, task, w);
    }
  }

  lemma PreparingResumesNothing(logs: Logs, outside: Outside, writes: seq<Write>, w: Write)
    requires AllPreparing(logs, outside, writes) && w.event.TaskRecorded? && w.event.status.PreparingContext?
    ensures w !in writes
  {
    forall i | 0 <= i < |writes| ensures writes[i] != w {
      assert PreparingWrite(logs, outside, writes[i]);
    }
  }

  /** A launch moves a task back to preparing its context exactly when that is
    * safe: nothing is in flight for it, its status is one of rest, no worker
    * ran the session and none runs it, no later turn has it, and the launch did
    * not just settle it. */
  lemma LaunchResumesExactly(d: Desk, at: Address, w: Write)
    requires w.session == at.0 && w.event.TaskRecorded? && w.event.id == at.1 && w.event.status.PreparingContext?
    ensures w in LaunchWrites(d.sessions, d.logs, d.outside) <==> ResumedAtLaunch(d, at) && w.event.prompt == ""
  {
    var prepared := PrepareAll(d.sessions, d.logs, d.outside);
    var (after, tasks) := (Applied(d.logs, prepared), ClassifyAll(d.sessions, d.logs, d.outside));
    AllPreparedIsPreparing(d.sessions, d.logs, d.outside);
    PreparingResumesNothing(d.logs, d.outside, prepared, w);
    if w in FailsOf(d) {
      FailsAreOfWaiting(Waiting(d.sessions, SweptLogs(d), d.outside), d.outside.unreadable, w);
    }
    SweepResumes(after, tasks, w);
    ClassifiedResumesIff(d, at, w);
  }

  // ---- which approvals are reattached, and which fail ----

  lemma {:induction false} WaitingAmongIff(session: string, log: Log, decided: set<Address>, ids: seq<string>, at: Address)
    ensures at in WaitingAmong(session, log, decided, ids) <==>
            at.0 == session && at.1 in ids && StatusIn(Active(log), at.1) == Some(WaitingForApproval) && at !in decided
  {
    if ids != [] {
      WaitingAmongIff(session, log, decided, ids[1..], at);
    }
  }

  lemma {:induction false} WaitingIff(sessions: seq<string>, logs: Logs, outside: Outside, at: Address)
    ensures at in Waiting(sessions, logs, outside) <==>
            at.0 in sessions && at.0 !in outside.live && StatusAt(logs, at) == Some(WaitingForApproval) && at !in outside.decided
  {
    if sessions != [] {
      var log := LogOf(logs, sessions[0]);
      WaitingIff(sessions[1..], logs, outside, at);
      WaitingAmongIff(sessions[0], log, outside.decided, TaskIds(Active(log)), at);
      HasStatusIffListed(Active(log), at.1);
    }
  }

  lemma {:induction false} FailsIff(waiting: seq<Address>, unreadable: set<Address>, at: Address)
    ensures Write(at.0, TaskRecorded(at.1, Failed, "")) in FailWrites(waiting, unreadable) <==> at in waiting && at in unreadable
  {
    if waiting != [] {
      FailsIff(waiting[1..], unreadable, at);
    }
  }

  /** The sweep leaves a task waiting exactly when it found it so and did not
    * just settle it. */
  lemma SweptWaits(d: Desk, at: Address)
    ensures StatusAt(SweptLogs(d), at) == Some(WaitingForApproval) ==> StatusAt(d.logs, at) == Some(WaitingForApproval)
    ensures StatusAt(d.logs, at) == Some(WaitingForApproval) && !JustSettled(d.logs, d.outside, at) ==>
              StatusAt(SweptLogs(d), at) == Some(WaitingForApproval)
  {
    var prepared := PrepareAll(d.sessions, d.logs, d.outside);
    var (after, tasks) := (Applied(d.logs, prepared), ClassifyAll(d.sessions, d.logs, d.outside));
    AllPreparedIsPreparing(d.sessions, d.logs, d.outside);
    PreparingDisturbsNothing(d.logs, d.outside, prepared, at);
    SweepMovesStatus(after, tasks, at);
    AppliedJoins(d.logs, prepared, SweepWrites(after, tasks));
    forall task | task in tasks && (task.session, task.task) == at
      ensures StatusAt(d.logs, at) != Some(WaitingForApproval)
    {
      ClassifiedAll(d.sessions, d.logs, d.outside, task);
    }
  }

  /** A fresh launch reattaches exactly the approvals of tasks that wait in idle
    * sessions, except those whose patch was decided already and those it just
    * settled. */
  lemma LaunchReattachesExactly(d: Desk, at: Address)
    requires !JustSettled(d.logs, d.outside, at)
    ensures at in Launch(d.sessions, d.logs, d.outside).approvals <==>
            && at.0 in d.sessions && at.0 !in d.outside.live && at !in d.outside.decided
            && StatusAt(d.logs, at) == Some(WaitingForApproval)
  {
    WaitingIff(d.sessions, SweptLogs(d), d.outside, at);
    SweptWaits(d, at);
  }

  /** A reattached approval whose proposal cannot be produced fails its task; the
    * others go on waiting. */
  lemma ReattachedWaitsOrFails(d: Desk, at: Address)
    requires at in Launch(d.sessions, d.logs, d.outside).approvals
    ensures StatusAt(Applied(d.logs, LaunchWrites(d.sessions, d.logs, d.outside)), at) ==
            Some(if at in d.outside.unreadable then Failed else WaitingForApproval)
  {
    var waiting := Waiting(d.sessions, SweptLogs(d), d.outside);
    WaitingIff(d.sessions, SweptLogs(d), d.outside, at);
    FailsIff(waiting, d.outside.unreadable, at);
    forall w | w in FailsOf(d) ensures w.event.TaskRecorded? && w.event.status == Failed && w.event.prompt == "" {
      FailsAreOfWaiting(waiting, d.outside.unreadable, w);
    }
    AllFail(SweptLogs(d), FailsOf(d), at);
    AppliedJoins(d.logs, SweepingWrites(d.sessions, d.logs, d.outside), FailsOf(d));
  }

  lemma {:induction false} AllFail(logs: Logs, writes: seq<Write>, at: Address)
    requires forall w | w in writes :: w.event.TaskRecorded? && w.event.status == Failed && w.event.prompt == ""
    ensures StatusAt(Applied(logs, writes), at) ==
            if Write(at.0, TaskRecorded(at.1, Failed, "")) in writes then Some(Failed) else StatusAt(logs, at)
    decreases |writes|
  {
    if writes != [] {
      var (init, last) := (writes[..|writes| - 1], writes[|writes| - 1]);
      AllFail(logs, init, at);
      assert writes == init + [last] && last in writes;
      AppendMovesAt(Applied(logs, init), last, at);
      assert last == Write(last.session, TaskRecorded(last.event.id, Failed, ""));
    }
  }

  // ---- what a card shows ----

  /** An append that records no prompt and no usage. */
  predicate Silent(w: Write) {
    w.event.TaskRecorded? && w.event.prompt == ""
  }

  /** What the two logs say of the task's prompt and usage is the same. */
  predicate ReadAlike(a: Log, b: Log, id: string) {
    PromptIn(Active(b), id) == PromptIn(Active(a), id) && UsageIn(b, id) == UsageIn(a, id) && (LostIn(b, id) <==> LostIn(a, id))
  }

  lemma SilentAppend(log: Log, e: Event, id: string)
    requires e.TaskRecorded? && e.prompt == ""
    ensures ReadAlike(log, log + [e], id)
  {
    QuietKeeps(log, e, id);
    assert (log + [e])[..|log|] == log;
  }

  lemma {:induction false} SilentKeeps(logs: Logs, writes: seq<Write>, at: Address)
    requires forall i | 0 <= i < |writes| :: Silent(writes[i])
    ensures ReadAlike(LogOf(logs, at.0), LogOf(Applied(logs, writes), at.0), at.1)
    decreases |writes|
  {
    if writes != [] {
      var (init, last) := (writes[..|writes| - 1], writes[|writes| - 1]);
      SilentKeeps(logs, init, at);
      SilentAppend(LogOf(Applied(logs, init), at.0), last.event, at.1);
    }
  }

  lemma {:induction false} SweepIsSilent(logs: Logs, tasks: seq<Recovered>)
    ensures forall i | 0 <= i < |SweepWrites(logs, tasks)| :: Silent(SweepWrites(logs, tasks)[i])
    decreases |tasks|
  {
    if tasks != [] {
      SweepIsSilent(logs, tasks[..|tasks| - 1]);
    }
  }

  /** The card is the log's word on its task. */
  predicate ShowsTask(logs: Logs, card: Card) {
    var (log, id) := (LogOf(logs, card.task.session), card.task.task);
    && card.prompt == PromptIn(Active(log), id) && card.usage == UsageIn(log, id)
    && (card.includesLostCall <==> LostIn(log, id))
    && (card.offersResume <==> !card.task.unknown && card.prompt != "")
  }

  lemma {:induction false} CardsShowTheirTasks(logs: Logs, tasks: seq<Recovered>, card: Card)
    requires card in SweepCards(logs, tasks)
    ensures card.task in tasks && ShowsTask(logs, card)
    decreases |tasks|
  {
    var (init, task) := (tasks[..|tasks| - 1], tasks[|tasks| - 1]);
    if card in SweepCards(logs, init) {
      CardsShowTheirTasks(logs, init, card);
    } else {
      SweepIsSilent(logs, init);
      SilentKeeps(logs, SweepWrites(logs, init), (task.session, task.task));
    }
  }

  /** A fresh card shows the task's prompt on record, the marker left unfinished,
    * whether its outcome is unknown, and its usage with the calls the crash cut
    * off counted in. */
  lemma FreshCardShows(d: Desk, card: Card)
    requires d.sweep == None && card in Shown(d)
    ensures var (log, id) := (LogOf(d.logs, card.task.session), card.task.task);
            && card.prompt == PromptIn(Active(log), id)
            && Some(card.task.previous) == StatusIn(Active(log), id)
            && card.task.dangling == Evidence(log, id) && (card.task.unknown <==> InFlight(log, id))
            && (card.offersResume <==> !InFlight(log, id) && card.prompt != "")
    ensures var log := LogOf(Applied(d.logs, PrepareAll(d.sessions, d.logs, d.outside)), card.task.session);
            && card.usage == UsageIn(log, card.task.task)
            && (card.includesLostCall <==> exists e :: e in log && e.UsageRecorded? && e.id == card.task.task && e.lost)
  {
    var prepared := PrepareAll(d.sessions, d.logs, d.outside);
    var (after, tasks) := (Applied(d.logs, prepared), ClassifyAll(d.sessions, d.logs, d.outside));
    OpenHolds(After(d, Serve(List)).logs, SweepOf(d).recovered, card);
    CardsShowTheirTasks(after, tasks, card);
    ClassifiedAll(d.sessions, d.logs, d.outside, card.task);
    ClassifiedAsSafeIff(card.task.session, LogOf(d.logs, card.task.session), card.task);
    AllPreparedIsPreparing(d.sessions, d.logs, d.outside);
    PreparingDisturbsNothing(d.logs, d.outside, prepared, (card.task.session, card.task.task));
  }

  // ---- what a decision is told, and what it leaves alone ----

  /** The answer to a decision, in full: the first missing field, then a task that
    * is no question, then one already handed on, then one whose outcome is
    * unknown, then a decision there is not. */
  lemma DecisionIsTold(d: Desk, form: Form, session: string, id: string, decision: string)
    requires Forms(form, session, id, decision)
    ensures var (log, answer) := (LogOf(d.logs, session), Decision(d.logs, d.outside, form).answer);
            if session in d.outside.live || JustSettled(d.logs, d.outside, (session, id))
               || !Going(d.logs, Recovered(session, id, false, None, Created, false))
            then answer == Refused(NotRecovered)
            else if SupersededAt(d.logs, (session, id)) then answer == Refused(AlreadyResumed)
            else if decision == "resume" then
              answer == if InFlight(log, id) then Refused(OutcomeUnknown) else Decided(PromptAt(d.logs, (session, id)))
            else answer == if decision in {"mark_failed", "abandon"} then Decided("") else Refused(UnknownDecision)
  {
    var log := LogOf(d.logs, session);
    assert Decision(d.logs, d.outside, form) == DecisionAt(d.logs, d.outside, session, id, decision);
    FoundIsThere(session, d.logs, d.outside, id);
    var task := ClassifyTask(session, log, id);
    if task.Some? {
      ClassifiedAsSafeIff(session, log, task.value);
    }
  }

  lemma FirstMissingFieldIsTold(d: Desk, form: Form)
    ensures var answer := Decision(d.logs, d.outside, form).answer;
            forall name :: answer == Refused(MissingField(name)) <==>
              || (name == "session_id" && RequiredForm(form, "session_id").None?)
              || (name == "task_id" && RequiredForm(form, "session_id").Some? && RequiredForm(form, "task_id").None?)
              || (name == "decision" && RequiredForm(form, "session_id").Some? && RequiredForm(form, "task_id").Some?
                  && RequiredForm(form, "decision").None?)
  {
    if RequiredForm(form, "session_id").Some? && RequiredForm(form, "task_id").Some? && RequiredForm(form, "decision").Some? {
      DecisionIsTold(d, form, form["session_id"], form["task_id"], form["decision"]);
    }
  }

  /** The answered approval's task is cancelled. */
  lemma ResolvedIsCancelled(d: Desk, form: Form)
    requires Resolution(form).answer.Decided?
    ensures StatusAt(After(d, Serve(Resolve(form))).logs, AddressOf(form)) == Some(Cancelled)
  {
    var w := Write(form["session_id"], TaskRecorded(form["task_id"], Cancelled, ""));
    assert [w][..0] == [] && Applied(d.logs, []) == d.logs;
    AppendMovesAt(d.logs, w, AddressOf(form));
  }

  lemma ResolutionNeedsItsFields(form: Form)
    ensures Resolution(form).answer.Decided? <==>
            && RequiredForm(form, "session_id").Some? && RequiredForm(form, "task_id").Some?
            && RequiredForm(form, "outcome").Some?
  {
  }

  lemma {:induction false} KeptCards(cards: seq<Card>, gone: Address, card: Card)
    ensures card in KeepCards(cards, gone) <==> card in cards && (card.task.session, card.task.task) != gone
    decreases |cards|
  {
    if cards != [] {
      KeptCards(cards[..|cards| - 1], gone, card);
      assert cards == cards[..|cards| - 1] + [cards[|cards| - 1]];
    }
  }

  /** An append that moves or supersedes the task. */
  predicate About(w: Write, at: Address) {
    w.session == at.0 && ((w.event.TaskRecorded? && w.event.id == at.1) || w.event == TaskSuperseded(at.1))
  }

  lemma {:induction false} OthersStaySettled(logs: Logs, writes: seq<Write>, at: Address)
    requires forall w | w in writes :: !About(w, at) && !w.event.Rewound?
    ensures SettledAt(Applied(logs, writes), at) <==> SettledAt(logs, at)
    decreases |writes|
  {
    if writes != [] {
      var (init, last) := (writes[..|writes| - 1], writes[|writes| - 1]);
      assert writes == init + [last] && last in writes;
      OthersStaySettled(logs, init, at);
      AppendMovesAt(Applied(logs, init), last, at);
    }
  }

  lemma DecisionIsAboutItsTask(logs: Logs, outside: Outside, session: string, id: string, decision: string)
    returns (prepared: seq<Write>, rest: seq<Write>)
    ensures DecisionAt(logs, outside, session, id, decision).writes == prepared + rest
    ensures AllPreparing(logs, outside, prepared)
    ensures forall w | w in rest :: About(w, (session, id))
  {
    PreparedIsPreparing(session, logs, outside);
    prepared, rest := Prepared(session, logs, outside), [];
    var found := Find(ClassifiedIn(session, logs, outside), id);
    if found.Some? && !SupersededIn(Active(LogOf(logs, session)), id) {
      FoundIsThere(session, logs, outside, id);
      var prompt := PromptIn(Active(LogOf(logs, session)), id);
      rest := Settle(found.value, decision, prompt).writes;
      SettlingIsAboutItsTask(found.value, decision, prompt);
    }
  }

  lemma SettlingIsAboutItsTask(task: Recovered, decision: string, prompt: string)
    ensures forall w | w in Settle(task, decision, prompt).writes :: About(w, (task.session, task.task))
  {
  }

  /** A decision leaves every other task as settled as it was, unless classifying
    * its session has just settled it. */
  lemma DecisionSettlesNoOther(d: Desk, form: Form, at: Address)
    requires at != AddressOf(form) && !JustSettled(d.logs, d.outside, at)
    ensures SettledAt(Applied(d.logs, Decision(d.logs, d.outside, form).writes), at) <==> SettledAt(d.logs, at)
  {
    if RequiredForm(form, "session_id").Some? && RequiredForm(form, "task_id").Some? && RequiredForm(form, "decision").Some? {
      var prepared, rest := DecisionIsAboutItsTask(d.logs, d.outside, form["session_id"], form["task_id"], form["decision"]);
      PreparingDisturbsNothing(d.logs, d.outside, prepared, at);
      OthersStaySettled(Applied(d.logs, prepared), rest, at);
      AppliedJoins(d.logs, prepared, rest);
    }
  }

  /** Nor does it, or answering an approval, take another approval away. */
  lemma OtherApprovalsAreKept(d: Desk, r: Request, at: Address)
    requires d.sweep.Some? && (r.List? || at != AddressOf(r.form))
    ensures at in SweepOf(After(d, Serve(r))).approvals <==> at in SweepOf(d).approvals
  {
    if !r.List? {
      KeepHolds(d.sweep.value.approvals, AddressOf(r.form), at);
    }
  }

  /** Deciding one task takes no other card away and brings none. */
  lemma DecisionKeepsOtherCards(d: Desk, form: Form, at: Address)
    requires d.sweep.Some? && at != AddressOf(form) && !JustSettled(d.logs, d.outside, at)
    ensures Lists(After(d, Serve(Decide(form))), at) <==> Lists(d, at)
  {
    var after := After(d, Serve(Decide(form)));
    DecisionSettlesNoOther(d, form, at);
    forall card: Card | (card.task.session, card.task.task) == at
      ensures card in Shown(after) <==> card in Shown(d)
    {
      OpenHolds(d.logs, d.sweep.value.recovered, card);
      OpenHolds(after.logs, after.sweep.value.recovered, card);
      KeptCards(d.sweep.value.recovered, AddressOf(form), card);
    }
  }
}
