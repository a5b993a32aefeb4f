/** The shell's map of live workers: `Supervisor` of
  * crates/desktop-shell/src/workers.rs, and the socket name of
  * crates/desktop-shell/src/worker.rs.
  */
module Supervision {
  import opened Common
  import opened Characters
  import opened HexText
  import opened Words
  import opened Sha256
  import opened Sha256Theorems

  // ---- socket names ----

  const SUN_PATH_CAPACITY: nat := 104

  /** `Path::join` of a relative path. */
  function Join(path: string, name: string): string {
    if path == "" || path[|path| - 1] == '/' then path + name else path + "/" + name
  }

  function SocketName(dataDir: string, session: seq<Byte>): string {
    SixteenCharactersHoldNineDigits(session, session);
    Join(Join(dataDir, "workers"), Sha256Text(session)[..16] + ".sock")
  }

  /** `worker_socket_path`; None when the path's bytes do not fit `sun_path`. */
  function SocketPath(dataDir: string, session: seq<Byte>): Option<string> {
    var path := SocketName(dataDir, session);
    if Bytes(path) >= SUN_PATH_CAPACITY then None else Some(path)
  }

  /** The length depends on the data directory alone, so one check answers for
    * every session id. */
  lemma OneCheckAnswersForEverySession(dataDir: string, checked: seq<Byte>, session: seq<Byte>)
    ensures SocketPath(dataDir, checked).Some? <==> SocketPath(dataDir, session).Some?
    ensures SocketPath(dataDir, session).Some? <==> Bytes(Join(dataDir, "workers")) <= 81
  {
    PathFitsIff(dataDir, checked);
    PathFitsIff(dataDir, session);
  }

  lemma PathFitsIff(dataDir: string, session: seq<Byte>)
    ensures SocketPath(dataDir, session).Some? <==> Bytes(Join(dataDir, "workers")) <= 81
  {
    SixteenCharactersHoldNineDigits(session, session);
    NameIsAscii(session);
    NameLength(dataDir, Sha256Text(session)[..16]);
  }

  lemma NameIsAscii(session: seq<Byte>)
    ensures |Sha256Text(session)| == 71 && Ascii(Sha256Text(session)[..16])
  {
    TextStartsAscii(Digest(session));
  }

  lemma TextStartsAscii(s: State)
    ensures |"sha256:" + HexState(s)| == 71 && Ascii(("sha256:" + HexState(s))[..16])
  {
    TextStarts(s);
    HexWordIsAscii(s.a);
    HexWordIsAscii(s.b);
    AsciiJoins("sha256:", HexWord(s.a), HexWord(s.b)[0]);
  }

  lemma AsciiJoins(a: string, b: string, c: char)
    requires Ascii(a) && Ascii(b) && c as int < 0x80
    ensures Ascii(a + b + [c])
  {
  }

  lemma HexWordIsAscii(x: Word)
    ensures |HexWord(x)| == 8 && Ascii(HexWord(x))
  {
    WordFitsEightDigits();
    HexReadsBack(x, 8);
  }

  lemma NameLength(dataDir: string, name: string)
    requires |name| == 16 && Ascii(name)
    ensures Bytes(Join(Join(dataDir, "workers"), name + ".sock")) == Bytes(Join(dataDir, "workers")) + 22
  {
    var dir := Join(dataDir, "workers");
    assert dir[|dir| - 1] == 's';
    assert dir + "/" + (name + ".sock") == dir + ("/" + name + ".sock");
    AsciiAddsItsLength(dir, "/" + name + ".sock");
  }

  /** Two sessions are given the same socket exactly when the first 36 bits of
    * their digests agree: nine hex digits, not sixteen. */
  lemma SocketsCollideIff(dataDir: string, m: seq<Byte>, n: seq<Byte>)
    ensures SocketName(dataDir, m) == SocketName(dataDir, n) <==>
            Digest(m).a == Digest(n).a && Digest(m).b / 0x1000_0000 == Digest(n).b / 0x1000_0000
  {
    SixteenCharactersHoldNineDigits(m, n);
    NamesAgree(Join(dataDir, "workers"), Sha256Text(m)[..16], Sha256Text(n)[..16]);
  }

  lemma NamesAgree(dir: string, a: string, b: string)
    requires |a| == |b|
    ensures Join(dir, a + ".sock") == Join(dir, b + ".sock") <==> a == b
  {
    var start := if dir == "" || dir[|dir| - 1] == '/' then dir else dir + "/";
    assert Join(dir, a + ".sock") == start + (a + ".sock") && Join(dir, b + ".sock") == start + (b + ".sock");
    assert (start + (a + ".sock"))[|start|..|start| + |a|] == a;
    assert (start + (b + ".sock"))[|start|..|start| + |a|] == b;
  }

  /** `worker_socket_path` in one data directory. */
  function SocketsIn(dataDir: string): seq<Byte> -> Option<string> {
    session => SocketPath(dataDir, session)
  }

  /** One check answers for every session. */
  ghost predicate Uniform(socketOf: seq<Byte> -> Option<string>) {
    forall a, b :: socketOf(a).Some? <==> socketOf(b).Some?
  }

  lemma SocketsAreUniform(dataDir: string)
    ensures Uniform(SocketsIn(dataDir))
  {
    forall a, b ensures SocketsIn(dataDir)(a).Some? <==> SocketsIn(dataDir)(b).Some? {
      OneCheckAnswersForEverySession(dataDir, a, b);
    }
  }

  // ---- the workers ----

  /** One supervised process; `lifeline` is false once the shell let go of it. */
  datatype Worker = Worker(pid: nat, worktree: string, socket: string, lifeline: bool)

  type Workers = map<string, Worker>

  /** When each process ends, if it ever does. */
  type Fates = nat -> Option<nat>

  predicate Alive(fates: Fates, w: Worker, now: nat) {
    fates(w.pid).None? || now < fates(w.pid).value
  }

  /** `reap`. */
  function Reaped(workers: Workers, fates: Fates, now: nat): Workers {
    map s | s in workers && Alive(fates, workers[s], now) :: workers[s]
  }

  /** No two live entries share a worktree. */
  predicate Apart(workers: Workers, fates: Fates, now: nat) {
    forall s, t | s in workers && t in workers && s != t
                  && Alive(fates, workers[s], now) && Alive(fates, workers[t], now) ::
      workers[s].worktree != workers[t].worktree
  }

  /** No live entry runs in the worktree: what a path just created is. */
  predicate Free(workers: Workers, fates: Fates, now: nat, worktree: string) {
    forall s | s in workers && Alive(fates, workers[s], now) :: workers[s].worktree != worktree
  }

  lemma ApartWithOneMore(workers: Workers, fates: Fates, now: nat, session: string, w: Worker)
    ensures Apart(workers, fates, now) && Free(workers, fates, now, w.worktree) ==> Apart(workers[session := w], fates, now)
  {
  }

  predicate HeldHere(workers: Workers, session: string, worktree: string) {
    session in workers || exists s :: s in workers && workers[s].worktree == worktree
  }

  function LetGo(workers: Workers): Workers {
    map s | s in workers :: workers[s].(lifeline := false)
  }

  datatype Message = Asked(session: string) | Signalled(session: string)

  function AskedAll(sessions: seq<string>): seq<Message> {
    seq(|sessions|, i requires 0 <= i < |sessions| => Asked(sessions[i]))
  }

  function SignalledAll(sessions: seq<string>): seq<Message> {
    seq(|sessions|, i requires 0 <= i < |sessions| => Signalled(sessions[i]))
  }

  datatype Refusal =
    | NoPrompt | UnknownParent | OtherRepository | ParentIsWorker | TaskWithoutParent | UnknownTask
    | SocketTooLong | NoWorktree
    | NotAWorker | WorktreeHeld | WorktreeRemoved
    | NotStarted

  datatype Answer = Refused(refusal: Refusal) | Running

  /** What a spawn asks for, and what the session store answers about it. */
  datatype Request = Request(
    blankPrompt: bool, parent: Option<Parent>, task: Option<bool>,
    session: string, id: seq<Byte>, created: Option<string>, launched: Option<nat>)

  /** The parent session: known or not, of which repository, a worker or not. */
  datatype Parent = Parent(known: bool, sameRepository: bool, isWorker: bool)

  /** The checks before anything is created, in the source's order. */
  function Refusing(fits: bool, r: Request): Option<Refusal> {
    if r.blankPrompt then Some(NoPrompt)
    else if r.parent.Some? && !r.parent.value.known then Some(UnknownParent)
    else if r.parent.Some? && !r.parent.value.sameRepository then Some(OtherRepository)
    else if r.parent.Some? && r.parent.value.isWorker then Some(ParentIsWorker)
    else if r.parent.None? && r.task.Some? then Some(TaskWithoutParent)
    else if r.parent.Some? && r.task == Some(false) then Some(UnknownTask)
    else if !fits then Some(SocketTooLong)
    else None
  }

  /** A spawn passes the checks exactly when it has a prompt, its parent, if it
    * names one, is a session of the same repository that is no worker itself,
    * its task is one of its parent's, and a socket path fits. */
  lemma RefusingIff(fits: bool, r: Request)
    ensures var asked := !r.blankPrompt && (r.parent.Some? ==> r.parent.value == Parent(true, true, false))
                         && (r.task.Some? ==> r.parent.Some? && r.task.value);
            && (Refusing(fits, r).None? <==> asked && fits)
            && (Refusing(fits, r) == Some(SocketTooLong) <==> asked && !fits)
  {
  }

  class Supervisor {
    const socketOf: seq<Byte> -> Option<string>
    const fates: Fates
    const delays: nat -> nat
    var step: nat
    var clock: nat
    var workers: Workers
    var sent: seq<Message>

    constructor (dataDir: string, fates: Fates, delays: nat -> nat)
      ensures socketOf == SocketsIn(dataDir) && Uniform(socketOf)
      ensures this.fates == fates && workers == map[] && sent == []
    {
      socketOf, this.fates, this.delays := SocketsIn(dataDir), fates, delays;
      step, clock, workers, sent := 0, 0, map[], [];
      new;
      SocketsAreUniform(dataDir);
    }

    method Reap()
      modifies this`workers
      ensures workers == Reaped(old(workers), fates, clock)
    {
      workers := map s | s in workers && Alive(fates, workers[s], clock) :: workers[s];
    }

    method Send(m: Message)
      modifies this`sent, this`clock, this`step
      ensures sent == old(sent) + [m] && clock >= old(clock)
    {
      sent := sent + [m];
      clock := clock + delays(step);
      step := step + 1;
    }

    method Sleep(poll: nat)
      modifies this`clock, this`step
      ensures clock > old(clock)
    {
      clock := clock + poll + delays(step) + 1;
      step := step + 1;
    }

    /** `start`: a worker that came up is inserted, and nothing else changes. */
    method Start(session: string, id: seq<Byte>, worktree: string, launched: Option<nat>) returns (answer: Answer)
      modifies this`workers
      ensures var socket := socketOf(id);
              && answer == (if socket.None? then Refused(SocketTooLong) else if launched.None? then Refused(NotStarted) else Running)
              && workers == if answer.Running?
                            then old(workers)[session := Worker(launched.value, worktree, socket.value, true)]
                            else old(workers)
    {
      var socket := socketOf(id);
      if socket.None? {
        return Refused(SocketTooLong);
      }
      if launched.None? {
        return Refused(NotStarted);
      }
      workers := workers[session := Worker(launched.value, worktree, socket.value, true)];
      answer := Running;
    }

    /** `spawn`; `check` stands in for a session id that does not exist yet. A
      * socket that does not fit is refused before the worktree is created,
      * never after: the second check, in `start`, cannot fail. */
    method Spawn(r: Request, check: seq<Byte>) returns (answer: Answer, created: bool)
      requires Uniform(socketOf)
      modifies this`workers
      ensures var refusal := Refusing(socketOf(check).Some?, r);
              && answer == (if refusal.Some? then Refused(refusal.value)
                            else if r.created.None? then Refused(NoWorktree)
                            else if r.launched.None? then Refused(NotStarted)
                            else Running)
              && created == (refusal.None? && r.created.Some?)
      ensures answer == Refused(SocketTooLong) ==> !created
      ensures answer.Running? ==>
                && socketOf(r.id).Some?
                && workers == old(workers)[r.session := Worker(r.launched.value, r.created.value, socketOf(r.id).value, true)]
      ensures answer.Refused? ==> workers == old(workers)
      ensures old(Apart(workers, fates, clock)) && r.created.Some? && old(Free(workers, fates, clock, r.created.value)) ==>
                Apart(workers, fates, clock)
    {
      created := false;
      if r.blankPrompt {
        return Refused(NoPrompt), created;
      }
      if r.parent.Some? {
        if !r.parent.value.known {
          return Refused(UnknownParent), created;
        }
        if !r.parent.value.sameRepository {
          return Refused(OtherRepository), created;
        }
        if r.parent.value.isWorker {
          return Refused(ParentIsWorker), created;
        }
      } else if r.task.Some? {
        return Refused(TaskWithoutParent), created;
      }
      if r.parent.Some? && r.task == Some(false) {
        return Refused(UnknownTask), created;
      }
      if socketOf(check).None? {
        return Refused(SocketTooLong), created;
      }
      if r.created.None? {
        return Refused(NoWorktree), created;
      }
      created := true;
      answer := Start(r.session, r.id, r.created.value, r.launched);
      if answer.Running? {
        ApartWithOneMore(old(workers), fates, clock, r.session, workers[r.session]);
      }
    }

    /** `worktree_is_held`; `answers` is whether something listens on the
      * session's socket. */
    method WorktreeIsHeld(session: string, id: seq<Byte>, worktree: string, answers: bool) returns (held: bool)
      modifies this`workers
      ensures workers == Reaped(old(workers), fates, clock)
      ensures held <==> HeldHere(workers, session, worktree) || (socketOf(id).Some? && answers)
    {
      Reap();
      var here := session in workers || exists s | s in workers :: workers[s].worktree == worktree;
      held := here || (socketOf(id).Some? && answers);
    }

    /** `restart`: `record` is the session's worktree, if it is a worker at
      * all. It needs no fresh path: the held check keeps the worktrees apart. */
    method Restart(session: string, id: seq<Byte>, record: Option<string>, answers: bool, isDirectory: bool,
                   launched: Option<nat>) returns (answer: Answer)
      modifies this`workers
      ensures var live := Reaped(old(workers), fates, clock);
              && answer == (if record.None? then Refused(NotAWorker)
                            else if HeldHere(live, session, record.value) || (socketOf(id).Some? && answers)
                            then Refused(WorktreeHeld)
                            else if !isDirectory then Refused(WorktreeRemoved)
                            else if socketOf(id).None? then Refused(SocketTooLong)
                            else if launched.None? then Refused(NotStarted)
                            else Running)
              && workers == (if record.None? then old(workers)
                             else if answer.Running?
                             then live[session := Worker(launched.value, record.value, socketOf(id).value, true)]
                             else live)
      ensures record.Some? && (session in Reaped(old(workers), fates, clock) || (socketOf(id).Some? && answers)) ==>
                answer == Refused(WorktreeHeld)
      ensures old(Apart(workers, fates, clock)) ==> Apart(workers, fates, clock)
    {
      if record.None? {
        return Refused(NotAWorker);
      }
      var held := WorktreeIsHeld(session, id, record.value, answers);
      if held {
        return Refused(WorktreeHeld);
      }
      if !isDirectory {
        return Refused(WorktreeRemoved);
      }
      answer := Start(session, id, record.value, launched);
    }

    /** `endpoints`: every live worker once, in some order. */
    method Endpoints() returns (sessions: seq<string>)
      modifies this`workers
      ensures workers == Reaped(old(workers), fates, clock)
      ensures Distinct(sessions) && forall s :: s in sessions <==> s in workers
    {
      Reap();
      sessions := [];
      var rest := workers.Keys;
      while rest != {}
        invariant rest <= workers.Keys && Distinct(sessions)
        invariant forall s :: s in sessions <==> s in workers && s !in rest
        decreases |rest|
      {
        var s :| s in rest;
        sessions := sessions + [s];
        rest := rest - {s};
      }
    }

    /** One wait of `shutdown_all`: until nothing is left or the deadline. */
    method AwaitExits(grace: nat, poll: nat)
      modifies this`workers, this`clock, this`step
      ensures clock >= old(clock) && workers == Reaped(old(workers), fates, clock)
      ensures workers != map[] ==> clock >= old(clock) + grace
    {
      var deadline := clock + grace;
      Reap();
      while workers != map[] && clock < deadline
        invariant clock >= old(clock) && workers == Reaped(old(workers), fates, clock)
        decreases deadline - clock
      {
        ghost var (before, then_) := (workers, clock);
        Sleep(poll);
        Reap();
        ReapedLater(old(workers), fates, then_, clock);
      }
    }

    method SendAll(messages: seq<Message>)
      modifies this`sent, this`clock, this`step
      ensures sent == old(sent) + messages && clock >= old(clock)
    {
      for i := 0 to |messages|
        invariant sent == old(sent) + messages[..i] && clock >= old(clock)
      {
        Send(messages[i]);
      }
      assert messages[..|messages|] == messages;
    }

    /** `shutdown_all`: it ends whatever the workers do, with nothing
      * supervised. Each worker alive at the start is asked once; SIGTERM goes
      * to exactly those of them still alive when the waiting ended, and to
      * none before the grace period is over. */
    method ShutdownAll(grace: nat, poll: nat) returns (asked: seq<string>, signalled: seq<string>, waited: nat)
      modifies this`workers, this`clock, this`step, this`sent
      ensures workers == map[]
      ensures sent == old(sent) + AskedAll(asked) + SignalledAll(signalled)
      ensures Distinct(asked) && forall s :: s in asked <==> s in Reaped(old(workers), fates, old(clock))
      ensures Distinct(signalled) && old(clock) <= waited <= clock
      ensures forall s :: s in signalled <==> s in asked && Alive(fates, old(workers)[s], waited)
      ensures signalled != [] ==> waited >= old(clock) + grace
    {
      asked := Endpoints();
      SendAll(AskedAll(asked));
      workers := LetGo(workers);
      ghost var first := workers;
      AwaitExits(grace, poll);
      waited := clock;
      signalled := Endpoints();
      ReapedLater(first, fates, waited, waited);
      StillThere(old(workers), fates, old(clock), waited);
      if signalled != [] {
        assert signalled[0] in workers;
      }
      SendAll(SignalledAll(signalled));
      AwaitExits(grace, poll);
      workers := map[];
    }
  }

  /** What is left after the wait: those asked who have not exited. */
  lemma StillThere(workers: Workers, fates: Fates, now: nat, later: nat)
    requires now <= later
    ensures forall s :: s in Reaped(LetGo(Reaped(workers, fates, now)), fates, later) <==>
                        s in Reaped(workers, fates, now) && Alive(fates, workers[s], later)
  {
  }

  lemma ReapedLater(workers: Workers, fates: Fates, now: nat, later: nat)
    requires now <= later
    ensures Reaped(Reaped(workers, fates, now), fates, later) == Reaped(workers, fates, later)
  {
  }

  /** Time brings no two workers together: exits only thin them out. */
  lemma ApartLater(workers: Workers, fates: Fates, now: nat, later: nat)
    requires Apart(workers, fates, now) && now <= later
    ensures Apart(workers, fates, later)
  {
  }
}
