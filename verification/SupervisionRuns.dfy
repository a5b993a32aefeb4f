/** Whole runs of the supervisor: spawns, restarts, looks and shutdowns in any
  * order, with workers exiting at any time.
  */
module SupervisionRuns {
  import opened Common
  import opened Words
  import opened Sha256
  import opened Supervision
  import opened Runs

  datatype Restart = Restart(
    session: string, id: seq<Byte>, record: Option<string>, answers: bool, isDirectory: bool, launched: Option<nat>)

  datatype Errand =
    | Spawning(request: Request, check: seq<Byte>)
    | Restarting(restart: Restart)
    | Looking                                  // `is_alive`, `pid` and `endpoint` reap first
    | ShuttingDown(grace: nat, poll: nat)
    | Waiting(ticks: nat)

  /** What the supervisor holds, and when. */
  datatype Fleet = Fleet(workers: Workers, clock: nat)

  type Sockets = seq<Byte> -> Option<string>

  function Spawned(sockets: Sockets, workers: Workers, r: Request, check: seq<Byte>): Workers {
    if Refusing(sockets(check).Some?, r).Some? || r.created.None? || sockets(r.id).None? || r.launched.None? then workers
    else workers[r.session := Worker(r.launched.value, r.created.value, sockets(r.id).value, true)]
  }

  function Restarted(sockets: Sockets, fates: Fates, a: Fleet, r: Restart): Workers {
    if r.record.None? then a.workers
    else
      var live := Reaped(a.workers, fates, a.clock);
      if HeldHere(live, r.session, r.record.value) || (sockets(r.id).Some? && r.answers) || !r.isDirectory
         || sockets(r.id).None? || r.launched.None?
      then live
      else live[r.session := Worker(r.launched.value, r.record.value, sockets(r.id).value, true)]
  }

  /** What an errand leaves behind. */
  predicate Follows(sockets: Sockets, fates: Fates, a: Fleet, e: Errand, b: Fleet) {
    match e
    case Spawning(r, check) => b == Fleet(Spawned(sockets, a.workers, r, check), a.clock)
    case Restarting(r) => b == Fleet(Restarted(sockets, fates, a, r), a.clock)
    case Looking => b == Fleet(Reaped(a.workers, fates, a.clock), a.clock)
    case ShuttingDown(_, _) => b.workers == map[] && b.clock >= a.clock
    case Waiting(_) => b.workers == a.workers && b.clock > a.clock
  }

  /** A spawn that gets to make its worktree makes a new one: no live entry can
    * be in it yet. */
  predicate Fresh(sockets: Sockets, fates: Fates, a: Fleet, e: Errand) {
    e.Spawning? && Refusing(sockets(e.check).Some?, e.request).None? && e.request.created.Some? ==>
      Free(a.workers, fates, a.clock, e.request.created.value)
  }

  ghost predicate Run(sockets: Sockets, fates: Fates, fs: seq<Fleet>, es: seq<Errand>) {
    && |fs| == |es| + 1
    && fs[0].workers == map[]
    && forall i | 0 <= i < |es| :: Follows(sockets, fates, fs[i], es[i], fs[i + 1]) && Fresh(sockets, fates, fs[i], es[i])
  }

  lemma RestartKeepsApart(sockets: Sockets, fates: Fates, a: Fleet, r: Restart)
    requires Apart(a.workers, fates, a.clock)
    ensures Apart(Restarted(sockets, fates, a, r), fates, a.clock)
  {
    var live := Reaped(a.workers, fates, a.clock);
    if r.record.Some? && !HeldHere(live, r.session, r.record.value) {
      forall s | s in live ensures live[s].worktree != r.record.value {
      }
    }
  }

  lemma ErrandKeepsApart(sockets: Sockets, fates: Fates, a: Fleet, e: Errand, b: Fleet)
    requires Follows(sockets, fates, a, e, b) && Fresh(sockets, fates, a, e) && Apart(a.workers, fates, a.clock)
    ensures Apart(b.workers, fates, b.clock)
  {
    match e
    case Spawning(r, check) =>
      if b.workers != a.workers {
        ApartWithOneMore(a.workers, fates, a.clock, r.session, b.workers[r.session]);
      }
    case Restarting(r) => RestartKeepsApart(sockets, fates, a, r);
    case Looking =>
    case ShuttingDown(_, _) =>
    case Waiting(_) => ApartLater(a.workers, fates, a.clock, b.clock);
  }

  /** In every serial run, at every state and at every later moment before the
    * next errand, no two live entries of the map share a worktree. */
  lemma NoTwoLiveWorkersShareAWorktree(
      sockets: Sockets, fates: Fates, fs: seq<Fleet>, es: seq<Errand>, i: nat, later: nat)
    requires Run(sockets, fates, fs, es) && i < |fs| && fs[i].clock <= later
    ensures Apart(fs[i].workers, fates, later)
  {
    forall k | 0 <= k < i && Apart(fs[k].workers, fates, fs[k].clock)
      ensures Apart(fs[k + 1].workers, fates, fs[k + 1].clock)
    {
      ErrandKeepsApart(sockets, fates, fs[k], es[k], fs[k + 1]);
    }
    HoldsLater((f: Fleet) => Apart(f.workers, fates, f.clock), fs, 0, i);
    ApartLater(fs[i].workers, fates, fs[i].clock, later);
  }

  /** One errand, run on the supervisor itself. */
  method Serve(s: Supervisor, e: Errand)
    requires Uniform(s.socketOf)
    modifies s
    ensures Follows(s.socketOf, s.fates, old(Fleet(s.workers, s.clock)), e, Fleet(s.workers, s.clock))
  {
    match e {
      case Spawning(r, check) =>
        var _, _ := s.Spawn(r, check);
      case Restarting(r) =>
        var _ := s.Restart(r.session, r.id, r.record, r.answers, r.isDirectory, r.launched);
      case Looking =>
        s.Reap();
      case ShuttingDown(grace, poll) =>
        var _, _, _ := s.ShutdownAll(grace, poll);
      case Waiting(ticks) =>
        s.Sleep(ticks);
    }
  }

  /** A whole run on a supervisor that holds nothing yet. However it goes, it is
    * one of the runs above, so with fresh spawn paths it ends with no worktree
    * shared. */
  method ServeAll(s: Supervisor, es: seq<Errand>) returns (ghost fs: seq<Fleet>)
    requires Uniform(s.socketOf) && s.workers == map[]
    modifies s
    ensures |fs| == |es| + 1 && fs[0] == old(Fleet(s.workers, s.clock)) && fs[|es|] == Fleet(s.workers, s.clock)
    ensures forall i | 0 <= i < |es| :: Follows(s.socketOf, s.fates, fs[i], es[i], fs[i + 1])
    ensures (forall i | 0 <= i < |es| :: Fresh(s.socketOf, s.fates, fs[i], es[i])) ==> Apart(s.workers, s.fates, s.clock)
  {
    fs := [Fleet(s.workers, s.clock)];
    for k := 0 to |es|
      invariant |fs| == k + 1 && fs[0] == old(Fleet(s.workers, s.clock)) && fs[k] == Fleet(s.workers, s.clock)
      invariant forall i | 0 <= i < k :: Follows(s.socketOf, s.fates, fs[i], es[i], fs[i + 1])
    {
      Serve(s, es[k]);
      fs := fs + [Fleet(s.workers, s.clock)];
    }
    if forall i | 0 <= i < |es| :: Fresh(s.socketOf, s.fates, fs[i], es[i]) {
      NoTwoLiveWorkersShareAWorktree(s.socketOf, s.fates, fs, es, |es|, s.clock);
    }
  }
}
