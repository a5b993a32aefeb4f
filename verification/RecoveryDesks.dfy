/** The object behind the recovery endpoints: the session logs on disk and the
  * sweep this process remembers. Every method is proved against the functions
  * of `Recovery`.
  */
module RecoveryDesks {
  import opened Common
  import opened SessionLog
  import opened Recovery

  /** An event that records no prompt and rewinds nothing. */
  predicate Quiet(e: Event) {
    !e.Rewound? && (e.TaskRecorded? ==> e.prompt == "")
  }

  lemma QuietKeeps(log: Log, e: Event, id: string)
    requires Quiet(e)
    ensures PromptIn(Active(log + [e]), id) == PromptIn(Active(log), id)
    ensures !e.TaskSuperseded? ==> (SupersededIn(Active(log + [e]), id) <==> SupersededIn(Active(log), id))
  {
    ActiveGrows(log, e);
    assert (Active(log) + [e])[..|Active(log)|] == Active(log);
  }

  lemma {:induction false} QuietWritesKeep(logs: Logs, writes: seq<Write>, session: string, id: string)
    requires forall i | 0 <= i < |writes| :: Quiet(writes[i].event) && !writes[i].event.TaskSuperseded?
    ensures var (a, b) := (LogOf(logs, session), LogOf(Applied(logs, writes), session));
            && PromptIn(Active(b), id) == PromptIn(Active(a), id)
            && (SupersededIn(Active(b), id) <==> SupersededIn(Active(a), id))
    decreases |writes|
  {
    if writes != [] {
      var (before, w) := (writes[..|writes| - 1], writes[|writes| - 1]);
      QuietWritesKeep(logs, before, session, id);
      if w.session == session {
        QuietKeeps(LogOf(Applied(logs, before), session), w.event, id);
      }
    }
  }

  lemma {:induction false} AppliedJoins(logs: Logs, a: seq<Write>, b: seq<Write>)
    ensures Applied(logs, a + b) == Applied(Applied(logs, a), b)
    decreases |b|
  {
    if b == [] {
      assert a + b == a;
    } else {
      AppliedJoins(logs, a, b[..|b| - 1]);
      assert (a + b)[..|a + b| - 1] == a + b[..|b| - 1];
    }
  }

  // ---- what classifying appends ----

  /** What one more event does to a task's prompt. */
  lemma PromptAppends(log: Log, e: Event, id: string)
    requires !e.Rewound?
    ensures PromptIn(Active(log + [e]), id) ==
            if e.TaskRecorded? && e.id == id && !e.status.Unrecognised? && e.prompt != "" then e.prompt
            else PromptIn(Active(log), id)
  {
    ActiveGrows(log, e);
    assert (Active(log) + [e])[..|Active(log)|] == Active(log);
  }

  /** An append the classifier makes on these logs. */
  predicate PreparingWrite(logs: Logs, outside: Outside, w: Write) {
    Prepares(LogOf(logs, w.session), Settlements(LogOf(logs, w.session), w.session in outside.live, outside.verdicts).settled,
             w.event)
  }

  predicate AllPreparing(logs: Logs, outside: Outside, writes: seq<Write>) {
    forall i | 0 <= i < |writes| :: PreparingWrite(logs, outside, writes[i])
  }

  /** Classifying changes no prompt and supersedes nothing; only a task it
    * settled gets another status, and that one ends. */
  predicate Undisturbed(a: Log, b: Log, settled: bool, id: string) {
    && PromptIn(Active(b), id) == PromptIn(Active(a), id)
    && (SupersededIn(Active(b), id) <==> SupersededIn(Active(a), id))
    && var (s, t) := (StatusIn(Active(a), id), StatusIn(Active(b), id));
       t == s || (settled && t.Some? && Terminal(t.value))
  }

  lemma OneMorePrepared(first: Log, before: Log, settled: set<string>, e: Event, id: string)
    requires Prepares(first, settled, e) && Undisturbed(first, before, id in settled, id)
    ensures Undisturbed(first, before + [e], id in settled, id)
  {
    PromptAppends(before, e, id);
    AppendMoves(before, e, id);
  }

  lemma {:induction false} PreparingDisturbsNothing(logs: Logs, outside: Outside, writes: seq<Write>, at: Address)
    requires AllPreparing(logs, outside, writes)
    ensures Undisturbed(LogOf(logs, at.0), LogOf(Applied(logs, writes), at.0), JustSettled(logs, outside, at), at.1)
    decreases |writes|
  {
    if writes != [] {
      var (before, w) := (writes[..|writes| - 1], writes[|writes| - 1]);
      PreparingDisturbsNothing(logs, outside, before, at);
      assert PreparingWrite(logs, outside, w);
      if w.session == at.0 {
        OneMorePrepared(LogOf(logs, at.0), LogOf(Applied(logs, before), at.0),
                        Settlements(LogOf(logs, at.0), at.0 in outside.live, outside.verdicts).settled, w.event, at.1);
      }
    }
  }

  lemma PreparedIsPreparing(session: string, logs: Logs, outside: Outside)
    ensures AllPreparing(logs, outside, Prepared(session, logs, outside))
  {
    var (log, live) := (LogOf(logs, session), session in outside.live);
    var events := Preparation(log, live, outside.verdicts);
    forall i | 0 <= i < |events| ensures PreparingWrite(logs, outside, Prepared(session, logs, outside)[i]) {
      PreparationPrepares(log, live, outside.verdicts, events[i]);
    }
  }

  lemma {:induction false} AllPreparedIsPreparing(sessions: seq<string>, logs: Logs, outside: Outside)
    ensures AllPreparing(logs, outside, PrepareAll(sessions, logs, outside))
  {
    if sessions != [] {
      PreparedIsPreparing(sessions[0], logs, outside);
      AllPreparedIsPreparing(sessions[1..], logs, outside);
    }
  }

  lemma WritesElsewhere(logs: Logs, task: Recovered)
    ensures forall s | s != task.session :: LogOf(Applied(logs, WriteOf(logs, task)), s) == LogOf(logs, s)
  {
    var writes := WriteOf(logs, task);
    if writes != [] {
      assert writes[..0] == [] && Applied(logs, []) == logs;
    }
  }

  /** The cache of a sweep: facts that still answer for the logs. */
  ghost predicate Cached(facts: map<string, SessionFacts>, logs: Logs) {
    forall s | s in facts :: Reads(facts[s], LogOf(logs, s))
  }

  ghost predicate CachedStatuses(facts: map<string, SessionFacts>, logs: Logs) {
    forall s | s in facts :: ReadsStatuses(facts[s], LogOf(logs, s))
  }

  class RecoveryDesk {
    const sessions: seq<string>
    var logs: Logs
    var outside: Outside
    var sweep: Option<Sweep>

    constructor (sessions: seq<string>, logs: Logs, outside: Outside)
      ensures this.sessions == sessions && this.logs == logs && this.outside == outside && sweep == None
    {
      this.sessions, this.logs, this.outside, sweep := sessions, logs, outside, None;
    }

    method AppendEvent(session: string, e: Event)
      modifies this`logs
      ensures logs == Append(old(logs), Write(session, e))
    {
      logs := logs[session := LogOf(logs, session) + [e]];
    }

    method AppendAll(writes: seq<Write>)
      modifies this`logs
      ensures logs == Applied(old(logs), writes)
    {
      for i := 0 to |writes|
        invariant logs == Applied(old(logs), writes[..i])
      {
        assert writes[..i + 1][..i] == writes[..i];
        AppendEvent(writes[i].session, writes[i].event);
      }
      assert writes[..|writes|] == writes;
    }

    /** One turn of the loop of `run_sweep`, with facts read earlier. */
    method SweepTask(task: Recovered, f: SessionFacts) returns (cards: seq<Card>)
      requires Reads(f, LogOf(logs, task.session))
      modifies this`logs
      ensures logs == Applied(old(logs), WriteOf(old(logs), task)) && cards == CardOf(old(logs), task)
      ensures Reads(f, LogOf(logs, task.session))
    {
      assert ReadsFor(f, LogOf(logs, task.session), task.task);
      if task.task in f.superseded {
        return [];
      }
      if task.auto {
        StillReads(f, LogOf(logs, task.session), task.task, PreparingContext);
        AppendAll([AutoResume(task)]);
      }
      cards := [Describe(task, PromptFact(f, task.task), Lookup(f.usage, task.task), task.task in f.lost)];
    }

    /** The same with the cache: a session not seen yet is read first. */
    method SweepCached(task: Recovered, known: map<string, SessionFacts>)
      returns (facts: map<string, SessionFacts>, cards: seq<Card>)
      requires Cached(known, logs)
      modifies this`logs
      ensures logs == Applied(old(logs), WriteOf(old(logs), task)) && cards == CardOf(old(logs), task)
      ensures Cached(facts, logs)
    {
      facts := known;
      if task.session !in facts {
        var read := ReadFacts(LogOf(logs, task.session));
        facts := facts[task.session := read];
      }
      WritesElsewhere(logs, task);
      cards := SweepTask(task, facts[task.session]);
    }

    /** The loop of `run_sweep`. Each session is read once, although the loop
      * itself writes to the logs: the cards and the writes are those of reading
      * the log afresh for every task. */
    method SweepTasks(tasks: seq<Recovered>) returns (cards: seq<Card>)
      modifies this`logs
      ensures logs == Applied(old(logs), SweepWrites(old(logs), tasks))
      ensures cards == SweepCards(old(logs), tasks)
    {
      var facts: map<string, SessionFacts> := map[];
      cards := [];
      for i := 0 to |tasks|
        invariant logs == Applied(old(logs), SweepWrites(old(logs), tasks[..i]))
        invariant cards == SweepCards(old(logs), tasks[..i])
        invariant Cached(facts, logs)
      {
        assert tasks[..i + 1][..i] == tasks[..i];
        AppliedJoins(old(logs), SweepWrites(old(logs), tasks[..i]), WriteOf(logs, tasks[i]));
        var more;
        facts, more := SweepCached(tasks[i], facts);
        cards := cards + more;
      }
      assert tasks[..|tasks|] == tasks;
    }

    /** `run_sweep`. */
    method RunSweep() returns (found: Sweep)
      modifies this`logs
      ensures logs == Applied(old(logs), LaunchWrites(sessions, old(logs), outside))
      ensures found == Launch(sessions, old(logs), outside)
    {
      var classified := ClassifyAll(sessions, logs, outside);
      AppendAll(PrepareAll(sessions, logs, outside));
      ghost var after := logs;
      var cards := SweepTasks(classified);
      AppliedJoins(old(logs), PrepareAll(sessions, old(logs), outside), SweepWrites(after, classified));
      var waiting := Waiting(sessions, logs, outside);
      AppendAll(FailWrites(waiting, outside.unreadable));
      AppliedJoins(old(logs), SweepingWrites(sessions, old(logs), outside), FailWrites(waiting, outside.unreadable));
      found := Sweep(cards, waiting);
    }

    /** Whether a card's task is settled, reading its session unless it was
      * read before. */
    method IsSettled(session: string, id: string, known: map<string, SessionFacts>)
      returns (settled: bool, facts: map<string, SessionFacts>)
      requires Cached(known, logs) && CachedStatuses(known, logs)
      ensures Cached(facts, logs) && CachedStatuses(facts, logs)
      ensures settled <==> Settled(LogOf(logs, session), id)
    {
      facts := known;
      if session !in facts {
        var read := ReadFacts(LogOf(logs, session));
        facts := facts[session := read];
      }
      var f := facts[session];
      assert ReadsFor(f, LogOf(logs, session), id);
      var status := Lookup(f.statuses, id);
      settled := (status.Some? && Terminal(status.value)) || id in f.superseded;
    }

    /** `sweep_payload`: the logs are read again, once each. */
    method SweepPayload(found: Sweep) returns (open: seq<Card>)
      ensures open == Open(logs, found.recovered)
    {
      var cards := found.recovered;
      var facts: map<string, SessionFacts> := map[];
      open := [];
      for i := 0 to |cards|
        invariant open == Open(logs, cards[..i])
        invariant Cached(facts, logs) && CachedStatuses(facts, logs)
      {
        assert cards[..i + 1][..i] == cards[..i];
        var settled;
        settled, facts := IsSettled(cards[i].task.session, cards[i].task.task, facts);
        if !settled {
          open := open + [cards[i]];
        }
      }
      assert cards[..|cards|] == cards;
    }

    /** `sweep_json`: the sweep runs once in a process, and is filtered on every
      * call. */
    method SweepJson() returns (open: seq<Card>, approvals: seq<Address>)
      modifies this`logs, this`sweep
      ensures old(sweep).Some? ==> logs == old(logs) && sweep == old(sweep)
      ensures old(sweep).None? ==> logs == Applied(old(logs), LaunchWrites(sessions, old(logs), outside))
                                   && sweep == Some(Launch(sessions, old(logs), outside))
      ensures sweep.Some? && open == Open(logs, sweep.value.recovered) && approvals == sweep.value.approvals
    {
      if sweep.None? {
        var found := RunSweep();
        sweep := Some(found);
      }
      open := SweepPayload(sweep.value);
      approvals := sweep.value.approvals;
    }

    /** `forget`. */
    method Forget(session: string, task: string)
      modifies this`sweep
      ensures sweep == Forgotten(old(sweep), (session, task))
    {
      if sweep.None? {
        return;
      }
      var (cards, addresses) := (sweep.value.recovered, sweep.value.approvals);
      var recovered: seq<Card> := [];
      for i := 0 to |cards|
        invariant recovered == KeepCards(cards[..i], (session, task))
      {
        assert cards[..i + 1][..i] == cards[..i];
        if cards[i].task.session != session || cards[i].task.task != task {
          recovered := recovered + [cards[i]];
        }
      }
      assert cards[..|cards|] == cards;
      var approvals: seq<Address> := [];
      for i := 0 to |addresses|
        invariant approvals == KeepAddresses(addresses[..i], (session, task))
      {
        assert addresses[..i + 1][..i] == addresses[..i];
        if addresses[i].0 != session || addresses[i].1 != task {
          approvals := approvals + [addresses[i]];
        }
      }
      assert addresses[..|addresses|] == addresses;
      sweep := Some(Sweep(recovered, approvals));
    }

    /** The writes of one decision on a recovered task, in the source's order:
      * the prompt is read back after the status moved. */
    method SettleTask(task: Recovered, decision: string) returns (answer: Answer)
      modifies this`logs
      ensures var outcome := Settle(task, decision, PromptIn(Active(LogOf(old(logs), task.session)), task.task));
              logs == Applied(old(logs), outcome.writes) && answer == outcome.answer
    {
      match decision {
        case "resume" =>
          if task.unknown {
            return Refused(OutcomeUnknown);
          }
          AppendAll([AutoResume(task)]);
          var prompts := ReadPrompts(Active(LogOf(logs, task.session)));
          QuietWritesKeep(old(logs), [AutoResume(task)], task.session, task.task);
          var superseded := Write(task.session, TaskSuperseded(task.task));
          AppendAll([superseded]);
          AppliedJoins(old(logs), [AutoResume(task)], [superseded]);
          assert [AutoResume(task)] + [superseded] == [AutoResume(task), superseded];
          answer := Decided(if task.task in prompts then prompts[task.task] else "");
        case "mark_failed" =>
          AppendAll([Write(task.session, TaskRecorded(task.task, Failed, ""))]);
          answer := Decided("");
        case "abandon" =>
          AppendAll([Write(task.session, TaskRecorded(task.task, Cancelled, ""))]);
          answer := Decided("");
        case _ =>
          answer := Refused(UnknownDecision);
      }
    }

    method DecideAt(session: string, id: string, decision: string) returns (answer: Answer)
      modifies this`logs
      ensures var outcome := DecisionAt(old(logs), outside, session, id, decision);
              logs == Applied(old(logs), outcome.writes) && answer == outcome.answer
    {
      var recovered := ClassifiedIn(session, logs, outside);
      var accounts := Prepared(session, logs, outside);
      AppendAll(accounts);
      PreparedIsPreparing(session, old(logs), outside);
      PreparingDisturbsNothing(old(logs), outside, accounts, (session, id));
      var found := Find(recovered, id);
      if found.None? {
        return Refused(NotRecovered);
      }
      FoundIsThere(session, old(logs), outside, id);
      var superseded, _ := ReadMarks(LogOf(logs, session));
      if id in superseded {
        return Refused(AlreadyResumed);
      }
      ghost var writes := Settle(found.value, decision, PromptIn(Active(old(LogOf(logs, session))), id)).writes;
      AppliedJoins(old(logs), accounts, writes);
      answer := SettleTask(found.value, decision);
    }

    /** `apply_decision`. */
    method ApplyDecision(form: map<string, string>) returns (answer: Answer)
      modifies this`logs, this`sweep
      ensures var outcome := Decision(old(logs), outside, form);
              && logs == Applied(old(logs), outcome.writes) && answer == outcome.answer
              && sweep == if answer.Decided? then Forgotten(old(sweep), AddressOf(form)) else old(sweep)
    {
      if RequiredForm(form, "session_id").None? {
        return Refused(MissingField("session_id"));
      }
      if RequiredForm(form, "task_id").None? {
        return Refused(MissingField("task_id"));
      }
      if RequiredForm(form, "decision").None? {
        return Refused(MissingField("decision"));
      }
      answer := DecideAt(form["session_id"], form["task_id"], form["decision"]);
      if answer.Decided? {
        Forget(form["session_id"], form["task_id"]);
      }
    }

    /** `resolve_reattached_approval_with`. */
    method ResolveReattachedApproval(form: map<string, string>) returns (answer: Answer)
      modifies this`logs, this`sweep
      ensures var outcome := Resolution(form);
              && logs == Applied(old(logs), outcome.writes) && answer == outcome.answer
              && sweep == if answer.Decided? then Forgotten(old(sweep), AddressOf(form)) else old(sweep)
    {
      if RequiredForm(form, "session_id").None? {
        return Refused(MissingField("session_id"));
      }
      if RequiredForm(form, "task_id").None? {
        return Refused(MissingField("task_id"));
      }
      if RequiredForm(form, "outcome").None? {
        return Refused(MissingField("outcome"));
      }
      AppendAll([Write(form["session_id"], TaskRecorded(form["task_id"], Cancelled, ""))]);
      Forget(form["session_id"], form["task_id"]);
      answer := Decided("");
    }
  }

  lemma {:induction false} FindAnswers(tasks: seq<Recovered>, id: string)
    ensures var r := Find(tasks, id);
            (r.Some? ==> r.value in tasks && r.value.task == id) && (r.None? ==> forall t | t in tasks :: t.task != id)
  {
    if tasks != [] {
      FindAnswers(tasks[1..], id);
    }
  }

  /** A decision finds the classifier's own record of the addressed task, and
    * finds one exactly when the classifier answers for that task. */
  lemma FoundIsThere(session: string, logs: Logs, outside: Outside, id: string)
    ensures Find(ClassifiedIn(session, logs, outside), id) ==
            if session in outside.live || JustSettled(logs, outside, (session, id)) then None
            else ClassifyTask(session, LogOf(logs, session), id)
  {
    var (log, tasks) := (LogOf(logs, session), ClassifiedIn(session, logs, outside));
    FindAnswers(tasks, id);
    if session !in outside.live {
      var settled := Settlements(log, false, outside.verdicts).settled;
      HasStatusIffListed(Active(log), id);
      if Find(tasks, id).Some? {
        ClassifiedIff(session, log, settled, TaskIds(Active(log)), Find(tasks, id).value);
      } else if ClassifyTask(session, log, id).Some? {
        ClassifiedIff(session, log, settled, TaskIds(Active(log)), ClassifyTask(session, log, id).value);
      }
    }
  }
}
