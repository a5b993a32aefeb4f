/** Counts grouped by a name: the maps of crates/eval-harness/src/record.rs and
  * crates/eval-harness/src/metrics.rs.
  */
module Tally {
  import opened Common
  import opened Folds

  type Counts = map<string, nat>

  function CountOf(m: Counts, name: string): nat {
    if name in m then m[name] else 0
  }

  /** `*entry(name).or_default() += n`. */
  function Bump(m: Counts, name: string, n: nat): Counts {
    m[name := CountOf(m, name) + n]
  }

  /** Everything counted, over all names. */
  ghost function Total(m: Counts): nat {
    if m == map[] then 0
    else
      var name :| name in m;
      m[name] + Total(m - {name})
  }

  lemma {:induction false} TotalWithout(m: Counts, name: string)
    requires name in m
    ensures Total(m) == m[name] + Total(m - {name})
    decreases |m|
  {
    var other :| other in m && Total(m) == m[other] + Total(m - {other});
    if other != name {
      TotalWithout(m - {other}, name);
      TotalWithout(m - {name}, other);
      assert m - {other} - {name} == m - {name} - {other};
    }
  }

  lemma BumpTotal(m: Counts, name: string, n: nat)
    ensures Total(Bump(m, name, n)) == Total(m) + n
  {
    var bumped := Bump(m, name, n);
    TotalWithout(bumped, name);
    if name in m {
      TotalWithout(m, name);
      assert bumped - {name} == m - {name};
    } else {
      assert bumped - {name} == m;
    }
  }

  /** Two tallies added up, name by name. */
  function Merge(m: Counts, g: Counts): Counts {
    map name | name in m.Keys + g.Keys :: CountOf(m, name) + CountOf(g, name)
  }

  lemma MergeOne(m: Counts, g: Counts, name: string)
    requires name in g
    ensures Merge(m, g) == Bump(Merge(m, g - {name}), name, g[name])
  {
    var (a, b) := (Merge(m, g), Bump(Merge(m, g - {name}), name, g[name]));
    assert a.Keys == b.Keys;
  }

  lemma {:induction false} MergeTotal(m: Counts, g: Counts)
    ensures Total(Merge(m, g)) == Total(m) + Total(g)
    decreases |g|
  {
    if g == map[] {
      MergeNothing(m);
    } else {
      var name :| name in g;
      MergeOne(m, g, name);
      MergeTotal(m, g - {name});
      BumpTotal(Merge(m, g - {name}), name, g[name]);
      TotalWithout(g, name);
    }
  }

  lemma MergeCommutes(m: Counts, a: Counts, b: Counts)
    ensures Merge(Merge(m, a), b) == Merge(Merge(m, b), a)
  {
    var (x, y) := (Merge(Merge(m, a), b), Merge(Merge(m, b), a));
    assert x.Keys == m.Keys + a.Keys + b.Keys && y.Keys == x.Keys;
    forall name | name in x.Keys ensures x[name] == y[name] {
      assert x[name] == CountOf(m, name) + CountOf(a, name) + CountOf(b, name);
    }
  }

  lemma MergeFirst(m: Counts, g: Counts, name: string)
    requires name in g
    ensures Merge(Bump(m, name, g[name]), g - {name}) == Merge(m, g)
  {
    var (a, b) := (Merge(Bump(m, name, g[name]), g - {name}), Merge(m, g));
    assert a.Keys == b.Keys;
  }

  lemma MergeNothing(m: Counts)
    ensures Merge(m, map[]) == m
  {
  }

  /** One tally added into another, entry by entry. */
  method MergeInto(m: Counts, g: Counts) returns (merged: Counts)
    ensures merged == Merge(m, g)
  {
    merged := m;
    var rest := g;
    while rest != map[]
      invariant Merge(merged, rest) == Merge(m, g)
      decreases |rest|
    {
      var name :| name in rest;
      MergeFirst(merged, rest, name);
      merged := Bump(merged, name, rest[name]);
      rest := rest - {name};
    }
    MergeNothing(merged);
  }

  // ---- one run's approval prompts ----

  datatype Approval = Approval(decision: string, cause: Option<string>)

  /** A prompt: a request that carries its cause. */
  predicate IsPrompt(a: Approval) {
    a.decision == "requested" && a.cause.Some?
  }

  function GroupOne(m: Counts, a: Approval): Counts {
    if IsPrompt(a) then Bump(m, a.cause.value, 1) else m
  }

  function Grouped(approvals: seq<Approval>): Counts {
    Fold(GroupOne, map[], approvals)
  }

  function Prompts(approvals: seq<Approval>): nat {
    if approvals == [] then 0
    else Prompts(approvals[..|approvals| - 1]) + if IsPrompt(approvals[|approvals| - 1]) then 1 else 0
  }

  /** How often this cause was asked about. */
  function PromptsOf(approvals: seq<Approval>, cause: string): nat {
    multiset(approvals)[Approval("requested", Some(cause))]
  }

  /** The groups lose no prompt and invent none: each cause has its own number
    * of prompts, a cause without prompts has no group, and the groups add up to
    * the prompts. */
  lemma {:induction false} GroupsHoldEveryPrompt(approvals: seq<Approval>, cause: string)
    ensures CountOf(Grouped(approvals), cause) == PromptsOf(approvals, cause)
    ensures cause in Grouped(approvals) <==> PromptsOf(approvals, cause) > 0
    ensures Total(Grouped(approvals)) == Prompts(approvals)
    decreases |approvals|
  {
    if approvals != [] {
      var (init, last) := (approvals[..|approvals| - 1], approvals[|approvals| - 1]);
      GroupsHoldEveryPrompt(init, cause);
      assert approvals == init + [last];
      if IsPrompt(last) {
        BumpTotal(Grouped(init), last.cause.value, 1);
      }
    }
  }

  /** `RunRecord`, the two fields the grouping is about. */
  class RunRecord {
    var approvals: seq<Approval>
    var approvalsByCause: Counts

    constructor (approvals: seq<Approval>)
      ensures this.approvals == approvals && approvalsByCause == map[]
    {
      this.approvals, approvalsByCause := approvals, map[];
    }

    /** `group_approvals_by_cause`: whatever the field held before. */
    method GroupApprovalsByCause()
      modifies this`approvalsByCause
      ensures approvalsByCause == Grouped(approvals)
    {
      approvalsByCause := map[];
      for i := 0 to |approvals|
        invariant approvalsByCause == Grouped(approvals[..i])
      {
        assert approvals[..i + 1][..i] == approvals[..i];
        var approval := approvals[i];
        if approval.decision != "requested" {
          continue;
        }
        if approval.cause.Some? {
          approvalsByCause := Bump(approvalsByCause, approval.cause.value, 1);
        }
      }
      assert approvals[..|approvals|] == approvals;
    }
  }
}
