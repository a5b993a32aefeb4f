/** What the report means: it does not depend on the order of the runs, nor on
  * skipped ones; it never reports a number it has no data for; and it loses no
  * approval prompt.
  */
module MetricsTheorems {
  import opened Common
  import opened Folds
  import opened Tally
  import opened Metrics

  // ---- order ----

  lemma SumInAnyOrder(f: Record -> nat, a: seq<Record>, b: seq<Record>)
    requires multiset(a) == multiset(b)
    ensures Sum(f, a) == Sum(f, b)
  {
    FoldInAnyOrder(Adding(f), 0, a, b);
  }

  lemma CostInAnyOrder(a: seq<Record>, b: seq<Record>)
    requires multiset(a) == multiset(b)
    ensures Cost(a) == Cost(b)
  {
    FoldInAnyOrder(AddCost, None, a, b);
  }

  lemma PromptsInAnyOrder(a: seq<Record>, b: seq<Record>)
    requires multiset(a) == multiset(b)
    ensures PromptsByCause(a) == PromptsByCause(b)
  {
    forall m, x, y ensures AddPrompts(AddPrompts(m, x), y) == AddPrompts(AddPrompts(m, y), x) {
      MergeCommutes(m, x.approvalsByCause, y.approvalsByCause);
    }
    FoldInAnyOrder(AddPrompts, map[], a, b);
  }

  lemma {:induction false} InsertCommutes(s: seq<nat>, x: nat, y: nat)
    ensures Insert(Insert(s, x), y) == Insert(Insert(s, y), x)
  {
    if s != [] && x > s[0] && y > s[0] {
      InsertCommutes(s[1..], x, y);
    }
  }

  lemma DurationsInAnyOrder(a: seq<Record>, b: seq<Record>)
    requires multiset(a) == multiset(b)
    ensures Durations(a) == Durations(b)
  {
    forall s, x, y ensures AddDuration(AddDuration(s, x), y) == AddDuration(AddDuration(s, y), x) {
      InsertCommutes(s, x.durationMs, y.durationMs);
    }
    FoldInAnyOrder(AddDuration, [], a, b);
  }

  /** A row made of two sums. */
  lemma TwoSumsInAnyOrder(f: Record -> nat, g: Record -> nat, a: seq<Record>, b: seq<Record>)
    requires multiset(a) == multiset(b)
    ensures Sum(f, a) == Sum(f, b) && Sum(g, a) == Sum(g, b) && |a| == |b|
  {
    SumInAnyOrder(f, a, b);
    SumInAnyOrder(g, a, b);
    assert |multiset(a)| == |a| && |multiset(b)| == |b|;
  }

  lemma OutcomesInAnyOrder(a: seq<Record>, b: seq<Record>)
    requires multiset(a) == multiset(b)
    ensures OutcomeRows(a) == OutcomeRows(b)
  {
    TwoSumsInAnyOrder(Completed, Completable, a, b);
    TwoSumsInAnyOrder(ChecksPassed, Checks, a, b);
    TwoSumsInAnyOrder(PolicyViolations, SafetyFailures, a, b);
    TwoSumsInAnyOrder(UnrelatedFiles, Interrupted, a, b);
    TwoSumsInAnyOrder(RecoveredWell, ToolErrors, a, b);
    TwoSumsInAnyOrder(ToolCalls, ToolCalls, a, b);
  }

  lemma SpendingInAnyOrder(a: seq<Record>, b: seq<Record>)
    requires multiset(a) == multiset(b)
    ensures SpendingRows(a) == SpendingRows(b)
  {
    SumInAnyOrder(ModelCalls, a, b);
    SumInAnyOrder(Tokens, a, b);
    CostInAnyOrder(a, b);
    DurationsInAnyOrder(a, b);
    assert |multiset(a)| == |a| && |multiset(b)| == |b|;
  }

  lemma PlansInAnyOrder(a: seq<Record>, b: seq<Record>)
    requires multiset(a) == multiset(b)
    ensures PlanRows(a) == PlanRows(b)
  {
    TwoSumsInAnyOrder(Useful, Corrected, a, b);
    TwoSumsInAnyOrder(Recalled, Planned, a, b);
    TwoSumsInAnyOrder(StepsPlanned, StepsVerified, a, b);
    TwoSumsInAnyOrder(StepsUnverified, StepsBlocked, a, b);
  }

  lemma LateRowsInAnyOrder(a: seq<Record>, b: seq<Record>)
    requires multiset(a) == multiset(b)
    ensures LateRows(a) == LateRows(b)
  {
    TwoSumsInAnyOrder(Cached, CacheReported, a, b);
    TwoSumsInAnyOrder(ExplorationFindings, ExplorationCommands, a, b);
    PromptsInAnyOrder(a, b);
  }

  lemma {:induction false} RunnableHolds(records: seq<Record>, r: Record)
    ensures multiset(Runnable(records))[r] == if r.notApplicable then 0 else multiset(records)[r]
    decreases |records|
  {
    if records != [] {
      RunnableHolds(records[..|records| - 1], r);
      assert records == records[..|records| - 1] + [records[|records| - 1]];
    }
  }

  /** Two sets of runs with the same runnable runs, in any order and beside any
    * skipped ones, have the same report. */
  lemma ReportInAnyOrder(a: seq<Record>, b: seq<Record>)
    requires forall r: Record :: !r.notApplicable ==> multiset(a)[r] == multiset(b)[r]
    ensures Compute(a) == Compute(b)
  {
    forall r ensures multiset(Runnable(a))[r] == multiset(Runnable(b))[r] {
      RunnableHolds(a, r);
      RunnableHolds(b, r);
    }
    assert multiset(Runnable(a)) == multiset(Runnable(b));
    OutcomesInAnyOrder(Runnable(a), Runnable(b));
    SpendingInAnyOrder(Runnable(a), Runnable(b));
    PlansInAnyOrder(Runnable(a), Runnable(b));
    LateRowsInAnyOrder(Runnable(a), Runnable(b));
  }

  // ---- no measure disappears ----

  const FIRST_KEYS := [
    "task_completion_rate", "check_pass_rate", "approval_policy_violations", "restricted_or_secret_violations",
    "unrelated_files_changed", "recovery_success", "tool_and_model_error_rate"]
  const SPENDING_KEYS := [
    "latency_median_ms", "latency_p90_ms", "model_calls_per_task", "tokens", "provider_cost",
    "manual_repair_rate", "patch_acceptance_rate"]
  const PLAN_KEYS := [
    "memory_recall_usefulness", "memory_correction_rate", "plan_steps_planned", "plan_steps_verified",
    "plan_steps_completed_unverified", "plan_steps_blocked"]
  const LATE_KEYS := ["cache_hit_rate", "exploration_findings", "approval_prompts_by_cause"]

  /** The rows of every report, in order. */
  const KEYS := FIRST_KEYS + SPENDING_KEYS + PLAN_KEYS + LATE_KEYS

  function KeysOf(rows: seq<Metric>): seq<string> {
    seq(|rows|, i requires 0 <= i < |rows| => rows[i].key)
  }

  lemma KeysJoin(a: seq<Metric>, b: seq<Metric>)
    ensures KeysOf(a + b) == KeysOf(a) + KeysOf(b)
  {
  }

  /** Whatever the runs hold, the report has the same 23 rows in the same
    * order: no measure quietly disappears. */
  lemma ReportHasEveryRow(records: seq<Record>)
    ensures KeysOf(Compute(records)) == KEYS && |KEYS| == 23
  {
    var rs := Runnable(records);
    KeysJoin(OutcomeRows(rs), SpendingRows(rs));
    KeysJoin(OutcomeRows(rs) + SpendingRows(rs), PlanRows(rs));
    KeysJoin(OutcomeRows(rs) + SpendingRows(rs) + PlanRows(rs), LateRows(rs));
    RowKeys(rs);
  }

  lemma RowKeys(rs: seq<Record>)
    ensures KeysOf(OutcomeRows(rs)) == FIRST_KEYS && KeysOf(SpendingRows(rs)) == SPENDING_KEYS
    ensures KeysOf(PlanRows(rs)) == PLAN_KEYS && KeysOf(LateRows(rs)) == LATE_KEYS
  {
  }

  // ---- latency ----

  predicate Sorted(s: seq<nat>) {
    forall i, j | 0 <= i < j < |s| :: s[i] <= s[j]
  }

  lemma {:induction false} InsertAddsOne(s: seq<nat>, x: nat)
    ensures multiset(Insert(s, x)) == multiset(s) + multiset{x}
  {
    if s != [] && x > s[0] {
      InsertAddsOne(s[1..], x);
      assert s == [s[0]] + s[1..];
    }
  }

  lemma {:induction false} InsertStaysAbove(s: seq<nat>, x: nat, low: nat)
    requires low <= x && forall i | 0 <= i < |s| :: low <= s[i]
    ensures forall i | 0 <= i < |Insert(s, x)| :: low <= Insert(s, x)[i]
  {
    if s != [] && x > s[0] {
      InsertStaysAbove(s[1..], x, low);
    }
  }

  lemma {:induction false} InsertSorts(s: seq<nat>, x: nat)
    requires Sorted(s)
    ensures Sorted(Insert(s, x))
  {
    if s != [] && x > s[0] {
      InsertSorts(s[1..], x);
      InsertStaysAbove(s[1..], x, s[0]);
      assert Insert(s, x) == [s[0]] + Insert(s[1..], x);
    }
  }

  /** How long each run took, in the order of the runs. */
  function Taken(records: seq<Record>): seq<nat> {
    seq(|records|, i requires 0 <= i < |records| => records[i].durationMs)
  }

  /** The durations are exactly those of the runs, each as often as it was
    * taken, sorted. */
  lemma {:induction false} DurationsAreSorted(records: seq<Record>)
    ensures Sorted(Durations(records)) && |Durations(records)| == |records|
    ensures multiset(Durations(records)) == multiset(Taken(records))
    decreases |records|
  {
    if records != [] {
      var (init, last) := (records[..|records| - 1], records[|records| - 1]);
      DurationsAreSorted(init);
      InsertSorts(Durations(init), last.durationMs);
      InsertAddsOne(Durations(init), last.durationMs);
      assert Taken(records) == Taken(init) + [last.durationMs];
      assert |multiset(Durations(records))| == |multiset(Durations(init))| + 1;
    }
  }

  /** Where in a sorted sequence of `n` a fraction of it lies, halves rounded
    * up. */
  function Rank(n: nat, fraction: real): real {
    (n - 1) as real * fraction + 0.5
  }

  predicate RankedAt(i: nat, n: nat, rank: real) {
    i < n && i as real <= rank < i as real + 1.0
  }

  lemma RankIsInside(n: nat, fraction: real)
    requires n > 0 && 0.0 <= fraction <= 1.0
    ensures 0.5 <= Rank(n, fraction) <= n as real - 0.5
  {
    ScaledStaysWithin((n - 1) as real, fraction);
    assert (n - 1) as real == n as real - 1.0;
  }

  lemma ScaledStaysWithin(m: real, fraction: real)
    requires 0.0 <= m && 0.0 <= fraction <= 1.0
    ensures 0.0 <= m * fraction <= m
  {
    ScaledIsMonotone(m, fraction, 1.0);
  }

  lemma FloorIsRanked(n: nat, rank: real)
    requires 0.5 <= rank <= n as real - 0.5
    ensures 0 <= rank.Floor && RankedAt(rank.Floor, n, rank)
  {
  }

  /** The reported percentile is the entry at the nearest rank. */
  lemma NearestRank(s: seq<nat>, fraction: real)
    requires s != [] && 0.0 <= fraction <= 1.0
    ensures exists i: nat :: RankedAt(i, |s|, Rank(|s|, fraction)) && Percentile(s, fraction) == s[i] as real
  {
    var rank := Rank(|s|, fraction);
    RankIsInside(|s|, fraction);
    FloorIsRanked(|s|, rank);
    assert Percentile(s, fraction) == s[rank.Floor] as real;
  }

  // ---- how many runs took as long ----

  function Counting<T>(p: T -> bool): (nat, T) -> nat {
    (n: nat, x: T) => if p(x) then n + 1 else n
  }

  lemma {:induction false} CountByFolding<T>(p: T -> bool, xs: seq<T>)
    ensures CountIf(p, xs) == Fold(Counting(p), 0, xs)
  {
    if xs != [] {
      CountByFolding(p, xs[..|xs| - 1]);
    }
  }

  lemma CountInAnyOrder<T(!new)>(p: T -> bool, a: seq<T>, b: seq<T>)
    requires multiset(a) == multiset(b)
    ensures CountIf(p, a) == CountIf(p, b)
  {
    CountByFolding(p, a);
    CountByFolding(p, b);
    FoldInAnyOrder(Counting(p), 0, a, b);
  }

  lemma {:induction false} ManyInARow<T>(p: T -> bool, xs: seq<T>, from: nat, end: nat)
    requires from <= end <= |xs| && forall k | from <= k < end :: p(xs[k])
    ensures CountIf(p, xs) >= end - from
    decreases |xs|
  {
    if from < end {
      var last := |xs| - 1;
      ManyInARow(p, xs[..last], from, if end <= last then end else last);
    }
  }

  function NoLonger(v: real): nat -> bool { (x: nat) => x as real <= v }

  function NoShorter(v: real): nat -> bool { (x: nat) => x as real >= v }

  lemma EntrySplits(s: seq<nat>, i: nat)
    requires Sorted(s) && i < |s|
    ensures CountIf(NoLonger(s[i] as real), s) >= i + 1
    ensures CountIf(NoShorter(s[i] as real), s) >= |s| - i
  {
    ManyInARow(NoLonger(s[i] as real), s, 0, i + 1);
    ManyInARow(NoShorter(s[i] as real), s, i, |s|);
  }

  predicate Occurs(taken: seq<nat>, v: real) {
    exists x :: x in taken && x as real == v
  }

  lemma OccursInAnyOrder(a: seq<nat>, b: seq<nat>, v: real)
    requires multiset(a) == multiset(b) && Occurs(a, v)
    ensures Occurs(b, v)
  {
    var x :| x in a && x as real == v;
    assert x in multiset(a);
    assert x in b;
  }

  /** Where a reported latency stands among the runs. */
  ghost predicate Splits(taken: seq<nat>, rank: real, v: real) {
    && Occurs(taken, v)
    && CountIf(NoLonger(v), taken) as real > rank
    && CountIf(NoShorter(v), taken) as real >= |taken| as real - rank
  }

  lemma PercentileSplits(s: seq<nat>, fraction: real)
    requires Sorted(s) && s != [] && 0.0 <= fraction <= 1.0
    ensures Splits(s, Rank(|s|, fraction), Percentile(s, fraction))
  {
    NearestRank(s, fraction);
    var i: nat :| RankedAt(i, |s|, Rank(|s|, fraction)) && Percentile(s, fraction) == s[i] as real;
    EntrySplits(s, i);
    assert s[i] in s;
  }

  lemma SplitsInAnyOrder(a: seq<nat>, b: seq<nat>, rank: real, v: real)
    requires multiset(a) == multiset(b) && Splits(a, rank, v)
    ensures Splits(b, rank, v)
  {
    assert |multiset(a)| == |a| && |multiset(b)| == |b|;
    CountInAnyOrder(NoLonger(v), a, b);
    CountInAnyOrder(NoShorter(v), a, b);
    OccursInAnyOrder(a, b, v);
  }

  /** A reported latency is how long some run took; more runs than its rank took
    * no longer, and the rest of them no less. */
  lemma LatencySplitsTheRuns(rs: seq<Record>, fraction: real)
    requires rs != [] && 0.0 <= fraction <= 1.0
    ensures Latency(rs, fraction).Number?
    ensures Splits(Taken(rs), Rank(|rs|, fraction), Latency(rs, fraction).number)
  {
    DurationsAreSorted(rs);
    PercentileSplits(Durations(rs), fraction);
    SplitsInAnyOrder(Durations(rs), Taken(rs), Rank(|rs|, fraction), Latency(rs, fraction).number);
  }

  lemma LatencyRows(records: seq<Record>)
    ensures var (rs, rows) := (Runnable(records), Compute(records));
            && |rows| > 8
            && rows[7] == Metric("latency_median_ms", Latency(rs, 0.5))
            && rows[8] == Metric("latency_p90_ms", Latency(rs, 0.9))
  {
    var rs := Runnable(records);
    SevenThenLatencies(rs);
    InSecondPart(OutcomeRows(rs), SpendingRows(rs), PlanRows(rs), LateRows(rs), 0);
    InSecondPart(OutcomeRows(rs), SpendingRows(rs), PlanRows(rs), LateRows(rs), 1);
  }

  lemma SevenThenLatencies(rs: seq<Record>)
    ensures |OutcomeRows(rs)| == 7 && |SpendingRows(rs)| == 7
    ensures SpendingRows(rs)[0] == Metric("latency_median_ms", Latency(rs, 0.5))
    ensures SpendingRows(rs)[1] == Metric("latency_p90_ms", Latency(rs, 0.9))
  {
  }

  lemma InSecondPart<T>(a: seq<T>, b: seq<T>, c: seq<T>, d: seq<T>, i: nat)
    requires i < |b|
    ensures |a| + i < |a + b + c + d| && (a + b + c + d)[|a| + i] == b[i]
  {
  }

  /** The row stands at this fraction of the runs. */
  ghost predicate StandsAt(row: Metric, rs: seq<Record>, fraction: real) {
    row.value.Number? && Splits(Taken(rs), Rank(|rs|, fraction), row.value.number)
  }

  lemma RowStandsAt(key: string, rs: seq<Record>, fraction: real)
    requires rs != [] && 0.0 <= fraction <= 1.0
    ensures StandsAt(Metric(key, Latency(rs, fraction)), rs, fraction)
  {
    LatencySplitsTheRuns(rs, fraction);
  }

  /** The report's median and p90 rows stand at half and at nine tenths of the
    * runs that count. */
  lemma ReportedLatenciesSplit(records: seq<Record>)
    requires Runnable(records) != []
    ensures var (rs, rows) := (Runnable(records), Compute(records));
            && |rows| > 8 && rows[7].key == "latency_median_ms" && rows[8].key == "latency_p90_ms"
            && StandsAt(rows[7], rs, 0.5) && StandsAt(rows[8], rs, 0.9)
  {
    LatencyRows(records);
    RowStandsAt("latency_median_ms", Runnable(records), 0.5);
    RowStandsAt("latency_p90_ms", Runnable(records), 0.9);
  }

  /** At least half of the runs took no longer than the reported median, and at
    * least half no less. */
  lemma MedianIsInTheMiddle(rs: seq<Record>)
    requires rs != []
    ensures var v := Latency(rs, 0.5).number;
            && 2 * CountIf(NoLonger(v), Taken(rs)) >= |rs|
            && 2 * CountIf(NoShorter(v), Taken(rs)) >= |rs|
  {
    LatencySplitsTheRuns(rs, 0.5);
  }

  lemma RoundIsMonotone(x: real, y: real)
    requires 0.0 <= x <= y
    ensures 0 <= Round(x) <= Round(y)
  {
  }

  lemma ScaledIsMonotone(n: real, low: real, high: real)
    requires 0.0 <= n && 0.0 <= low <= high
    ensures 0.0 <= n * low <= n * high
  {
  }

  /** A higher percentile is never below a lower one. */
  lemma PercentilesAreOrdered(s: seq<nat>, low: real, high: real)
    requires Sorted(s) && 0.0 <= low <= high
    ensures Percentile(s, low) <= Percentile(s, high)
  {
    if s != [] {
      var last := (|s| - 1) as real;
      ScaledIsMonotone(last, low, high);
      RoundIsMonotone(last * low, last * high);
    }
  }

  /** The reported median never exceeds the reported p90; both are reported
    * exactly when there is a run. */
  lemma MedianNeverExceedsP90(rs: seq<Record>)
    ensures Latency(rs, 0.5).Number? == Latency(rs, 0.9).Number? == (rs != [])
    ensures rs != [] ==> Latency(rs, 0.5).number <= Latency(rs, 0.9).number
  {
    DurationsAreSorted(rs);
    PercentilesAreOrdered(Durations(rs), 0.5, 0.9);
  }

  // ---- no data ----

  /** A sum is zero exactly when every run contributes nothing. */
  lemma {:induction false} SumIsZeroIff(f: Record -> nat, records: seq<Record>)
    ensures Sum(f, records) == 0 <==> forall r | r in records :: f(r) == 0
    decreases |records|
  {
    if records != [] {
      var (init, last) := (records[..|records| - 1], records[|records| - 1]);
      SumIsZeroIff(f, init);
      assert records == init + [last];
    }
  }

  lemma {:induction false} SumIsBelow(f: Record -> nat, g: Record -> nat, records: seq<Record>)
    requires forall r :: f(r) <= g(r)
    ensures Sum(f, records) <= Sum(g, records)
    decreases |records|
  {
    if records != [] {
      SumIsBelow(f, g, records[..|records| - 1]);
    }
  }

  lemma RatioIsAFraction(n: nat, d: nat)
    requires n <= d && d > 0
    ensures 0.0 <= Ratio(n, d) <= 1.0
  {
    assert n as real / d as real * d as real == n as real;
  }

  /** Where there is nothing to measure the report says so: each of these rows
    * reports no data exactly when no run has anything to observe, so a reported
    * zero is always an observed one. */
  lemma NoDataIsSaidExactlyWhenThereIsNone(rs: seq<Record>)
    ensures CompletionRate(rs).NotApplicable? <==> forall r | r in rs :: Completable(r) == 0
    ensures CheckPassRate(rs).NotApplicable? <==> forall r | r in rs :: r.checks == []
    ensures RecoverySuccess(rs).NotApplicable? <==> forall r | r in rs :: r.recovery.None?
    ensures ErrorRate(rs).NotApplicable? <==> forall r | r in rs :: r.outcomes == []
  {
    SumIsZeroIff(Completable, rs);
    SumIsZeroIff(Checks, rs);
    SumIsZeroIff(Interrupted, rs);
    SumIsZeroIff(ToolCalls, rs);
  }

  /** The same for the counts: of runs, memories, plans, caches, explorations. */
  lemma NoCountWithoutObservations(rs: seq<Record>, f: Record -> nat)
    ensures CountOverRuns(f, rs).NotApplicable? <==> rs == []
    ensures OverRecalled(f, rs).NotApplicable? <==> forall r | r in rs :: r.recalled == 0
    ensures OverPlans(f, rs).NotApplicable? <==> forall r | r in rs :: r.plan.None?
    ensures CacheHitRate(rs).NotApplicable? <==> forall r | r in rs :: CacheReported(r) == 0
    ensures ExplorationRow(rs).NotApplicable? <==> forall r | r in rs :: r.explorationCommands == 0
  {
    SumIsZeroIff(Recalled, rs);
    SumIsZeroIff(Planned, rs);
    SumIsZeroIff(CacheReported, rs);
    SumIsZeroIff(ExplorationCommands, rs);
  }

  predicate IsFraction(v: Value) {
    v.Number? ==> 0.0 <= v.number <= 1.0
  }

  lemma RateIsAFraction(f: Record -> nat, g: Record -> nat, rs: seq<Record>, phase: string)
    requires forall r :: f(r) <= g(r)
    ensures IsFraction(RateOrNoData(Sum(f, rs), Sum(g, rs), phase))
  {
    SumIsBelow(f, g, rs);
    if Sum(g, rs) > 0 {
      RatioIsAFraction(Sum(f, rs), Sum(g, rs));
    }
  }

  /** The rates over runs are fractions of one. */
  lemma RatesAreFractions(rs: seq<Record>)
    ensures IsFraction(CompletionRate(rs)) && IsFraction(CheckPassRate(rs))
    ensures IsFraction(RecoverySuccess(rs)) && IsFraction(ErrorRate(rs))
  {
    RateIsAFraction(Completed, Completable, rs, "no-completable-scenarios");
    RateIsAFraction(ChecksPassed, Checks, rs, "no-checks-ran");
    RateIsAFraction(RecoveredWell, Interrupted, rs, "no-interrupted-scenarios");
    RateIsAFraction(ToolErrors, ToolCalls, rs, "no-tool-calls");
  }

  // ---- what the rates are rates of ----

  predicate IsShare(rate: Value, part: nat, whole: nat) {
    rate.Number? ==> rate.number * whole as real == part as real
  }

  lemma RateIsAShare(part: nat, whole: nat, phase: string)
    ensures IsShare(RateOrNoData(part, whole, phase), part, whole)
  {
  }

  lemma {:induction false} SumOfOnes(f: Record -> nat, p: Record -> bool, rs: seq<Record>)
    requires forall r :: f(r) == AsOne(p(r))
    ensures Sum(f, rs) == CountIf(p, rs)
  {
    if rs != [] {
      SumOfOnes(f, p, rs[..|rs| - 1]);
    }
  }

  predicate EndedWell(r: Record) { r.finalStatus == "completed" }

  predicate CouldEndWell(r: Record) { r.finalStatus !in {"refused", "blocked"} }

  /** The completion rate is the share of completed runs among those that were
    * neither refused nor blocked. */
  lemma CompletionIsAShare(rs: seq<Record>)
    ensures IsShare(CompletionRate(rs), CountIf(EndedWell, rs), CountIf(CouldEndWell, rs))
  {
    SumOfOnes(Completed, EndedWell, rs);
    SumOfOnes(Completable, CouldEndWell, rs);
    RateIsAShare(Sum(Completed, rs), Sum(Completable, rs), "no-completable-scenarios");
  }

  predicate WasInterrupted(r: Record) { r.recovery.Some? }

  /** The interruption was recognised as of unknown outcome, and the run was not
    * resumed, by itself or by asking. */
  predicate StoppedSafely(r: Record) {
    r.recovery == Some(Recovery("unknown_external_outcome", false, true))
  }

  /** The recovery rate is the share of safely stopped runs among the interrupted
    * ones. */
  lemma RecoveryIsAShare(rs: seq<Record>)
    ensures IsShare(RecoverySuccess(rs), CountIf(StoppedSafely, rs), CountIf(WasInterrupted, rs))
  {
    SumOfOnes(RecoveredWell, StoppedSafely, rs);
    SumOfOnes(Interrupted, WasInterrupted, rs);
    RateIsAShare(Sum(RecoveredWell, rs), Sum(Interrupted, rs), "no-interrupted-scenarios");
  }

  /** The other rates are shares of totals over all runs too, and the counts are
    * those totals. */
  lemma RatesAreSharesOfTotals(rs: seq<Record>, f: Record -> nat)
    ensures IsShare(ErrorRate(rs), Sum(ToolErrors, rs), Sum(ToolCalls, rs))
    ensures IsShare(OverRecalled(f, rs), Sum(f, rs), Sum(Recalled, rs))
    ensures IsShare(CacheHitRate(rs), Sum(Cached, rs), Sum(CacheReported, rs))
    ensures IsShare(ModelCallsPerTask(rs), Sum(ModelCalls, rs), |rs|)
    ensures CountOverRuns(f, rs).Count? ==> CountOverRuns(f, rs).count == Sum(f, rs)
    ensures OverPlans(f, rs).Count? ==> OverPlans(f, rs).count == Sum(f, rs)
  {
    RateIsAShare(Sum(ToolErrors, rs), Sum(ToolCalls, rs), "no-tool-calls");
    RateIsAShare(Sum(f, rs), Sum(Recalled, rs), "no-recalled-memory");
    RateIsAShare(Sum(Cached, rs), Sum(CacheReported, rs), "no-cache-report");
    RateIsAShare(Sum(ModelCalls, rs), |rs|, "no-runs");
  }

  /** A tool call is an error unless it went well, waits for someone or found a
    * conflict; an unknown outcome is none where a crash was injected. */
  lemma ToolErrorIff(outcome: string, injected: bool)
    ensures IsToolError(outcome, injected) <==>
            outcome !in {"ok", "awaiting_approval", "awaiting_review", "awaiting_answer", "conflict"}
            && !(outcome == "unknown" && injected)
  {
  }

  function TokensIn(r: Record): nat { r.inputTokens }

  function TokensOut(r: Record): nat { r.outputTokens }

  /** The token row counts what went in and what came out. */
  lemma {:induction false} TokensAddUp(rs: seq<Record>)
    ensures Sum(Tokens, rs) == Sum(TokensIn, rs) + Sum(TokensOut, rs)
    decreases |rs|
  {
    if rs != [] {
      var (init, last) := (rs[..|rs| - 1], rs[|rs| - 1]);
      TokensAddUp(init);
      assert rs == init + [last];
      SumOfOneMore(Tokens, init, last);
      SumOfOneMore(TokensIn, init, last);
      SumOfOneMore(TokensOut, init, last);
    }
  }

  lemma {:induction false} CountJoins<T>(p: T -> bool, a: seq<T>, b: seq<T>)
    ensures CountIf(p, a + b) == CountIf(p, a) + CountIf(p, b)
    decreases |b|
  {
    if b == [] {
      assert a + b == a;
    } else {
      CountJoins(p, a, b[..|b| - 1]);
      assert (a + b)[..|a + b| - 1] == a + b[..|b| - 1];
    }
  }

  function AllChecks(rs: seq<Record>): seq<bool> {
    if rs == [] then [] else AllChecks(rs[..|rs| - 1]) + rs[|rs| - 1].checks
  }

  /** The counts a run adds are those of its checks. */
  predicate ChecksCounted(rs: seq<Record>) {
    Sum(Checks, rs) == |AllChecks(rs)| && Sum(ChecksPassed, rs) == CountIf(Passed, AllChecks(rs))
  }

  lemma SumOfOneMore(f: Record -> nat, rs: seq<Record>, r: Record)
    ensures Sum(f, rs + [r]) == Sum(f, rs) + f(r)
  {
    assert (rs + [r])[..|rs|] == rs;
  }

  lemma OneMoreCounted(rs: seq<Record>, r: Record)
    requires ChecksCounted(rs)
    ensures ChecksCounted(rs + [r])
  {
    assert (rs + [r])[..|rs|] == rs;
    assert AllChecks(rs + [r]) == AllChecks(rs) + r.checks;
    SumOfOneMore(Checks, rs, r);
    SumOfOneMore(ChecksPassed, rs, r);
    CountJoins(Passed, AllChecks(rs), r.checks);
  }

  lemma {:induction false} ChecksAddUp(rs: seq<Record>)
    ensures ChecksCounted(rs)
    decreases |rs|
  {
    if rs != [] {
      var (init, last) := (rs[..|rs| - 1], rs[|rs| - 1]);
      assert rs == init + [last];
      ChecksAddUp(init);
      OneMoreCounted(init, last);
    }
  }

  /** The check rate is the share of passed checks among the checks of all
    * runs, not the mean of the runs' own rates. */
  lemma CheckRateIsAShare(rs: seq<Record>)
    ensures IsShare(CheckPassRate(rs), CountIf(Passed, AllChecks(rs)), |AllChecks(rs)|)
  {
    ChecksAddUp(rs);
    RateIsAShare(Sum(ChecksPassed, rs), Sum(Checks, rs), "no-checks-ran");
  }

  // ---- cost ----

  function CostOr0(rs: seq<Record>): real {
    if Cost(rs).Some? then Cost(rs).value else 0.0
  }

  /** The cost adds up over the runs, and is reported exactly when some run has
    * one. */
  lemma {:induction false} CostAddsUp(a: seq<Record>, b: seq<Record>)
    ensures Cost(a + b).Some? <==> Cost(a).Some? || Cost(b).Some?
    ensures CostOr0(a + b) == CostOr0(a) + CostOr0(b)
    decreases |b|
  {
    if b == [] {
      assert a + b == a;
    } else {
      CostAddsUp(a, b[..|b| - 1]);
      assert (a + b)[..|a + b| - 1] == a + b[..|b| - 1];
    }
  }

  lemma CostOfOne(r: Record)
    ensures Cost([r]) == r.cost && Cost([]) == None
  {
    assert [r][..0] == [];
    assert Cost([r]) == AddCost(Cost([]), r);
  }

  // ---- approval prompts ----

  /** How many prompts the runs recorded, cause by cause. */
  function CausedBy(cause: string): Record -> nat {
    (r: Record) => CountOf(r.approvalsByCause, cause)
  }

  /** The groups of the report are the groups of the runs added up: per cause,
    * and over all causes. */
  lemma {:induction false} PromptsAreConserved(records: seq<Record>, cause: string)
    ensures CountOf(PromptsByCause(records), cause) == Sum(CausedBy(cause), records)
    decreases |records|
  {
    if records != [] {
      PromptsAreConserved(records[..|records| - 1], cause);
    }
  }

  function PromptsRecorded(approvals: seq<seq<Approval>>): nat {
    if approvals == [] then 0
    else PromptsRecorded(approvals[..|approvals| - 1]) + Prompts(approvals[|approvals| - 1])
  }

  /** Once every run has been grouped, the groups of the report add up to the
    * prompts of all runs. */
  lemma {:induction false} GroupsAddUpToThePrompts(records: seq<Record>, approvals: seq<seq<Approval>>)
    requires |approvals| == |records|
    requires forall i | 0 <= i < |records| :: records[i].approvalsByCause == Grouped(approvals[i])
    ensures Total(PromptsByCause(records)) == PromptsRecorded(approvals)
    decreases |records|
  {
    if records != [] {
      var n := |records| - 1;
      GroupsAddUpToThePrompts(records[..n], approvals[..n]);
      MergeTotal(PromptsByCause(records[..n]), records[n].approvalsByCause);
      GroupsHoldEveryPrompt(approvals[n], "");
    }
  }
}
