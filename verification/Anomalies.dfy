/** costs/attribution.py: cost anomalies of a window, per run and per provider. */
module Anomalies {
  import opened Common
  import opened Sums
  import opened Sorting
  import opened Partition
  import opened Rounding
  import opened Attribution

  datatype Kind = HighCostFailedRun | CostSpike | ProviderErrorCost
  datatype Severity = Warning | Danger

  datatype Anomaly = Anomaly(
    kind: Kind, severity: Severity, cost: real, runId: Option<int>,
    deploymentId: Option<int>, provider: Option<string>, model: Option<string>)

  function Larger(x: real, y: real): real { if x < y then y else x }

  function SpikeThreshold(average: real, runs: nat): real {
    var t := Larger(average * 2.0, 0.05);
    if runs == 1 && t > 0.5 then 0.5 else t
  }

  predicate Spikes(cost: real, average: real, runs: nat) {
    cost > SpikeThreshold(average, runs)
  }

  predicate Dangerous(cost: real, average: real) {
    cost > Larger(average * 4.0, 0.5)
  }

  /** The anomalies of one run, given all its rows. */
  function RunAnomalies(items: seq<UsageRow>, average: real, runs: nat): seq<Anomaly>
    requires items != []
  {
    FailureReport(items[0], SumBy(Cost, items)) + SpikeReport(items[0], SumBy(Cost, items), average, runs)
  }

  function FailureReport(r: UsageRow, cost: real): seq<Anomaly> {
    if Failed(r) && cost > 0.0
    then [Anomaly(HighCostFailedRun, if cost < 1.0 then Warning else Danger, Round6(cost),
                  Some(r.runId), r.deploymentId, r.provider, r.model)]
    else []
  }

  function SpikeReport(r: UsageRow, cost: real, average: real, runs: nat): seq<Anomaly> {
    if Spikes(cost, average, runs)
    then [Anomaly(CostSpike, if Dangerous(cost, average) then Danger else Warning, Round6(cost),
                  Some(r.runId), r.deploymentId, r.provider, r.model)]
    else []
  }

  function FailedCost(r: UsageRow): real { if Failed(r) then r.cost else 0.0 }

  /** Half or more of a provider's spend went into failed runs. */
  function ProviderAnomalies(provider: string, items: seq<UsageRow>): seq<Anomaly> {
    var failed, total := SumBy(FailedCost, items), SumBy(Cost, items);
    if total > 0.0 && failed / total >= 0.5 && failed > 0.0
    then [Anomaly(ProviderErrorCost, Warning, Round6(failed), None, None, Some(provider), None)]
    else []
  }

  function Runs(rows: seq<UsageRow>): seq<int> { Keys(RunId, rows) }

  function RunCosts(rows: seq<UsageRow>): int -> real { GroupSum(RunId, Cost, rows) }

  function Average(rows: seq<UsageRow>): real {
    SumBy(RunCosts(rows), Runs(rows)) / Max(|Runs(rows)|, 1) as real
  }

  function ById(k: int): real { -(k as real) }

  function ForRun(rows: seq<UsageRow>, average: real, runs: nat): int -> seq<Anomaly> {
    k => var items := Group(RunId, rows, k);
         if items == [] then [] else RunAnomalies(items, average, runs)
  }

  function ProviderOf(r: UsageRow): string { OrElse(r.provider, "unknown") }

  function ForProvider(rows: seq<UsageRow>): string -> seq<Anomaly> {
    k => ProviderAnomalies(k, Group(ProviderOf, rows, k))
  }

  function First20(s: seq<Anomaly>): seq<Anomaly> { if |s| <= 20 then s else s[..20] }

  /** All anomalies: runs in id order, then providers in order of first use. */
  function AnomaliesAt(rows: seq<UsageRow>, average: real, runs: nat): seq<Anomaly> {
    FlatMap(ForRun(rows, average, runs), ReportOrder(rows)) + FlatMap(ForProvider(rows), Keys(ProviderOf, rows))
  }

  function AllAnomalies(rows: seq<UsageRow>): seq<Anomaly> {
    AnomaliesAt(rows, Average(rows), |Runs(rows)|)
  }

  /** The runs in report order. */
  function ReportOrder(rows: seq<UsageRow>): seq<int> { SortDescending(ById, Runs(rows)) }

  function NoCaption(r: UsageRow): () { () }

  method CollectRunAnomalies(rows: seq<UsageRow>) returns (anomalies: seq<Anomaly>)
    ensures anomalies == FlatMap(ForRun(rows, Average(rows), |Runs(rows)|), ReportOrder(rows))
  {
    var order, perRun, captions := GroupLoop(RunId, NoCaption, rows);
    var runCost := (k: int) => if k in perRun then SumBy(Cost, perRun[k]) else 0.0;
    var average, runs := SumBy(runCost, order) / Max(|order|, 1) as real, |order|;
    forall k | k in order ensures runCost(k) == RunCosts(rows)(k) {
      assert TalliedKey(RunId, NoCaption, rows, perRun, captions, k);
    }
    SumCongruence(runCost, RunCosts(rows), order);
    var forRun := (k: int) => if k in perRun && perRun[k] != [] then RunAnomalies(perRun[k], average, runs) else [];
    anomalies := Collect(forRun, SortDescending(ById, order));
    ghost var spec := ForRun(rows, average, runs);
    SortLaws(ById, order);
    forall k | k in ReportOrder(rows) ensures forRun(k) == spec(k) {
      assert TalliedKey(RunId, NoCaption, rows, perRun, captions, k);
    }
    FlatMapCongruence(forRun, spec, ReportOrder(rows));
  }

  method CollectProviderAnomalies(rows: seq<UsageRow>) returns (anomalies: seq<Anomaly>)
    ensures anomalies == FlatMap(ForProvider(rows), Keys(ProviderOf, rows))
  {
    var order, perProvider, captions := GroupLoop(ProviderOf, NoCaption, rows);
    var forProvider := (k: string) => if k in perProvider then ProviderAnomalies(k, perProvider[k]) else [];
    anomalies := Collect(forProvider, order);
    forall k | k in order ensures forProvider(k) == ForProvider(rows)(k) {
      assert TalliedKey(ProviderOf, NoCaption, rows, perProvider, captions, k);
    }
    FlatMapCongruence(forProvider, ForProvider(rows), order);
  }

  /** The anomalies, cut to the first twenty. */
  method BuildAnomalies(rows: seq<UsageRow>) returns (anomalies: seq<Anomaly>)
    ensures anomalies == First20(AllAnomalies(rows))
    ensures anomalies <= AllAnomalies(rows)
    ensures |anomalies| == if |AllAnomalies(rows)| < 20 then |AllAnomalies(rows)| else 20
  {
    if rows == [] {
      return [];
    }
    var runAnomalies := CollectRunAnomalies(rows);
    var providerAnomalies := CollectProviderAnomalies(rows);
    anomalies := First20(runAnomalies + providerAnomalies);
  }

  // ---- Which anomalies there are, without the report functions ----

  function RowsOfRun(rows: seq<UsageRow>, run: int): seq<UsageRow> {
    Filter((r: UsageRow) => r.runId == run, rows)
  }

  function CostOf(rows: seq<UsageRow>): real {
    SumBy((r: UsageRow) => r.cost, rows)
  }

  /** What all rows cost, shared out evenly among the runs. */
  function MeanCost(rows: seq<UsageRow>): real
    requires |Runs(rows)| > 0
  {
    CostOf(rows) / |Runs(rows)| as real
  }

  function AboutRun(kind: Kind, severity: Severity, cost: real, r: UsageRow): Anomaly {
    Anomaly(kind, severity, Round6(cost), Some(r.runId), r.deploymentId, r.provider, r.model)
  }

  /** A failed run that cost something; a dollar or more is dangerous. */
  predicate IsCostlyFailure(a: Anomaly, items: seq<UsageRow>) {
    && items != [] && items[0].status == "failed" && CostOf(items) > 0.0
    && a == AboutRun(HighCostFailedRun, if CostOf(items) >= 1.0 then Danger else Warning, CostOf(items), items[0])
  }

  /** A run above twice the mean and five cents, or, if it is the only one, above half a dollar; above four times the
      mean and half a dollar it is dangerous. */
  predicate IsCostSpike(a: Anomaly, items: seq<UsageRow>, mean: real, runs: nat) {
    && items != []
    && ((CostOf(items) > 2.0 * mean && CostOf(items) > 0.05) || (runs == 1 && CostOf(items) > 0.5))
    && a == AboutRun(CostSpike, if CostOf(items) > 4.0 * mean && CostOf(items) > 0.5 then Danger else Warning,
                     CostOf(items), items[0])
  }

  function RowsOfProvider(rows: seq<UsageRow>, provider: string): seq<UsageRow> {
    Filter((r: UsageRow) => NameOf(r.provider) == provider, rows)
  }

  function FailedRows(rows: seq<UsageRow>): seq<UsageRow> {
    Filter((r: UsageRow) => r.status == "failed", rows)
  }

  /** A provider at least half of whose positive spend went into failed runs. */
  predicate IsProviderFailure(a: Anomaly, provider: string, items: seq<UsageRow>) {
    var failed, total := CostOf(FailedRows(items)), CostOf(items);
    && total > 0.0 && failed > 0.0 && failed + failed >= total
    && a == Anomaly(ProviderErrorCost, Warning, Round6(failed), None, None, Some(provider), None)
  }

  lemma RunReportMeans(items: seq<UsageRow>, average: real, runs: nat, a: Anomaly)
    requires items != []
    ensures a in RunAnomalies(items, average, runs)
       <==> IsCostlyFailure(a, items) || IsCostSpike(a, items, average, runs)
  {
    SumCongruence(Cost, (r: UsageRow) => r.cost, items);
    assert SumBy(Cost, items) == CostOf(items);
  }

  lemma RunGroup(rows: seq<UsageRow>, k: int)
    ensures Group(RunId, rows, k) == RowsOfRun(rows, k)
  {
    GroupIs(RunId, rows, k, (r: UsageRow) => r.runId == k);
  }

  lemma FailedCostIs(items: seq<UsageRow>)
    ensures SumBy(FailedCost, items) == CostOf(FailedRows(items)) && SumBy(Cost, items) == CostOf(items)
  {
    SumOfFiltered((r: UsageRow) => r.cost, (r: UsageRow) => r.status == "failed", FailedCost, items);
    SumCongruence(Cost, (r: UsageRow) => r.cost, items);
  }

  lemma HalfOf(failed: real, total: real)
    requires total > 0.0
    ensures failed / total >= 0.5 <==> failed + failed >= total
  {
    assert failed / total * total == failed;
  }

  lemma ProviderReportMeans(items: seq<UsageRow>, k: string, a: Anomaly)
    ensures a in ProviderAnomalies(k, items) <==> IsProviderFailure(a, k, items)
  {
    FailedCostIs(items);
    if CostOf(items) > 0.0 {
      HalfOf(SumBy(FailedCost, items), CostOf(items));
    }
  }

  lemma ProviderGroup(rows: seq<UsageRow>, k: string)
    ensures Group(ProviderOf, rows, k) == RowsOfProvider(rows, k)
  {
    GroupIs(ProviderOf, rows, k, (r: UsageRow) => NameOf(r.provider) == k);
  }

  lemma MeanIs(rows: seq<UsageRow>)
    requires rows != []
    ensures |Runs(rows)| > 0 && Average(rows) == MeanCost(rows)
  {
    ReportOrderLength(rows);
    PartitionSum(RunId, Cost, rows);
    SumCongruence(Cost, (r: UsageRow) => r.cost, rows);
  }

  lemma RunListed(rows: seq<UsageRow>, a: Anomaly)
    requires rows != []
    ensures a in FlatMap(ForRun(rows, Average(rows), |Runs(rows)|), ReportOrder(rows)) <==>
      exists r <- rows :: IsCostlyFailure(a, RowsOfRun(rows, r.runId))
        || IsCostSpike(a, RowsOfRun(rows, r.runId), Average(rows), |Runs(rows)|)
  {
    var average, runs := Average(rows), |Runs(rows)|;
    var f, order := ForRun(rows, average, runs), ReportOrder(rows);
    FlatMapMembers(f, order, a);
    SortLaws(ById, Runs(rows));
    KeysMembers(RunId, rows);
    forall k | k in order
      ensures a in f(k) <==> IsCostlyFailure(a, RowsOfRun(rows, k)) || IsCostSpike(a, RowsOfRun(rows, k), average, runs)
    {
      ReportedRunHasRows(rows, k);
      RunGroup(rows, k);
      RunReportMeans(RowsOfRun(rows, k), average, runs, a);
    }
    forall r | r in rows ensures r.runId in order {
      assert RunId(r) in Runs(rows);
      assert r.runId in multiset(order);
    }
    forall k | k in order ensures exists r <- rows :: r.runId == k {
      assert k in Runs(rows);
      var r :| r in rows && RunId(r) == k;
    }
  }

  lemma ProviderListed(rows: seq<UsageRow>, a: Anomaly)
    ensures a in FlatMap(ForProvider(rows), Keys(ProviderOf, rows)) <==>
      exists r <- rows :: IsProviderFailure(a, NameOf(r.provider), RowsOfProvider(rows, NameOf(r.provider)))
  {
    FlatMapMembers(ForProvider(rows), Keys(ProviderOf, rows), a);
    KeysMembers(ProviderOf, rows);
    forall k ensures a in ForProvider(rows)(k) <==> IsProviderFailure(a, k, RowsOfProvider(rows, k)) {
      ProviderGroup(rows, k);
      ProviderReportMeans(RowsOfProvider(rows, k), k, a);
    }
    assert forall r <- rows :: ProviderOf(r) == NameOf(r.provider);
  }

  /** The anomalies of a window are exactly the costly failures and the cost spikes among its runs, and the failures
      among its providers. */
  lemma AnomaliesExact(rows: seq<UsageRow>, a: Anomaly)
    requires rows != []
    ensures |Runs(rows)| > 0
    ensures a in AllAnomalies(rows) <==>
      || (exists r <- rows :: IsCostlyFailure(a, RowsOfRun(rows, r.runId))
            || IsCostSpike(a, RowsOfRun(rows, r.runId), MeanCost(rows), |Runs(rows)|))
      || (exists r <- rows :: IsProviderFailure(a, NameOf(r.provider), RowsOfProvider(rows, NameOf(r.provider))))
  {
    MeanIs(rows);
    RunListed(rows, a);
    ProviderListed(rows, a);
  }

  /** Runs are reported in ascending order of their ids, each once. */
  lemma ReportOrderAscends(rows: seq<UsageRow>)
    ensures multiset(ReportOrder(rows)) == multiset(Runs(rows))
    ensures forall i, j :: 0 <= i < j < |ReportOrder(rows)| ==> ReportOrder(rows)[i] < ReportOrder(rows)[j]
  {
    var order := ReportOrder(rows);
    SortLaws(ById, Runs(rows));
    KeysMembers(RunId, rows);
    DistinctOnce(Runs(rows));
    forall i, j | 0 <= i < j < |order| ensures order[i] < order[j] {
      assert ById(order[i]) >= ById(order[j]);
      OnceMeansApart(order, i, j);
    }
  }

  predicate IsSpike(a: Anomaly) { a.kind == CostSpike }
  predicate IsDangerSpike(a: Anomaly) { a.kind == CostSpike && a.severity == Danger }

  /** The runs a spike (or a dangerous one) is reported for. */
  function SpikeRun(costs: int -> real, average: real, runs: nat): int -> bool {
    k => Spikes(costs(k), average, runs)
  }

  function DangerRun(costs: int -> real, average: real, runs: nat): int -> bool {
    k => Spikes(costs(k), average, runs) && Dangerous(costs(k), average)
  }

  /** x added up n times */
  function AddUp(x: real, n: nat): real {
    if n == 0 then 0.0 else AddUp(x, n - 1) + x
  }

  lemma {:induction false} AddUpIsProduct(x: real, n: nat)
    ensures AddUp(x, n) == x * n as real
  {
    if n > 0 {
      AddUpIsProduct(x, n - 1);
    }
  }

  lemma {:induction false} AddUpTwice(x: real, n: nat)
    ensures AddUp(x + x, n) == AddUp(x, 2 * n)
  {
    if n > 0 {
      AddUpTwice(x, n - 1);
    }
  }

  lemma {:induction false} AddUpGrows(x: real, m: nat, n: nat)
    requires x >= 0.0 && m <= n
    ensures AddUp(x, m) <= AddUp(x, n)
  {
    if m < n {
      AddUpGrows(x, m, n - 1);
    }
  }

  lemma {:induction false} AddUpOrder(x: real, y: real, n: nat)
    requires x <= y
    ensures AddUp(x, n) <= AddUp(y, n)
  {
    if n > 0 {
      AddUpOrder(x, y, n - 1);
    }
  }

  /** m elements above t make a non-negative sum exceed t added up m times. */
  lemma {:induction false} SumAbove<T>(f: T -> real, p: T -> bool, s: seq<T>, t: real)
    requires forall x <- s :: f(x) >= 0.0 && (p(x) ==> f(x) > t)
    ensures SumBy(f, s) >= AddUp(t, |Filter(p, s)|)
    ensures Filter(p, s) != [] ==> SumBy(f, s) > AddUp(t, |Filter(p, s)|)
  {
    if s != [] {
      SumAbove(f, p, s[..|s| - 1], t);
    }
  }

  /** Of n non-negative values with this average, fewer than n / 2 exceed a positive bound of at least twice
      the average, and fewer than n / 4 one of at least four times the average. */
  lemma MarkovBound<T>(f: T -> real, p: T -> bool, s: seq<T>, average: real, t: real)
    requires s != [] && t > 0.0 && average >= 0.0
    requires SumBy(f, s) == AddUp(average, |s|)
    requires forall x <- s :: f(x) >= 0.0 && (p(x) ==> f(x) > t)
    ensures t >= average + average ==> 2 * |Filter(p, s)| < |s|
    ensures t >= (average + average) + (average + average) ==> 4 * |Filter(p, s)| < |s|
  {
    SumAbove(f, p, s, t);
    var m, twice := |Filter(p, s)|, average + average;
    if t >= twice && 2 * m >= |s| {
      AddUpOrder(twice, t, m);
      AddUpTwice(average, m);
      AddUpGrows(average, |s|, 2 * m);
    }
    if t >= twice + twice && 4 * m >= |s| {
      AddUpOrder(twice + twice, t, m);
      AddUpTwice(twice, m);
      AddUpTwice(average, 2 * m);
      AddUpGrows(average, |s|, 4 * m);
    }
  }

  /** Each run reports at most one anomaly of a kind, so reports and reporting runs are equally many. */
  lemma {:induction false} ReportCount<T>(p: Anomaly -> bool, f: T -> seq<Anomaly>, q: T -> bool, s: seq<T>)
    requires forall k <- s :: |Filter(p, f(k))| == if q(k) then 1 else 0
    ensures |Filter(p, FlatMap(f, s))| == |Filter(q, s)|
  {
    if s != [] {
      ReportCount(p, f, q, s[..|s| - 1]);
      FilterConcat(p, FlatMap(f, s[..|s| - 1]), f(s[|s| - 1]));
    }
  }

  lemma RunReports(rows: seq<UsageRow>, average: real, runs: nat, k: int)
    requires Group(RunId, rows, k) != []
    ensures |Filter(IsSpike, ForRun(rows, average, runs)(k))|
         == if SpikeRun(RunCosts(rows), average, runs)(k) then 1 else 0
    ensures |Filter(IsDangerSpike, ForRun(rows, average, runs)(k))|
         == if DangerRun(RunCosts(rows), average, runs)(k) then 1 else 0
  {
    var items := Group(RunId, rows, k);
    var failure := FailureReport(items[0], SumBy(Cost, items));
    var spike := SpikeReport(items[0], SumBy(Cost, items), average, runs);
    FilterConcat(IsSpike, failure, spike);
    FilterConcat(IsDangerSpike, failure, spike);
  }

  lemma ProviderReports(rows: seq<UsageRow>, k: string)
    ensures Filter(IsSpike, ForProvider(rows)(k)) == [] && Filter(IsDangerSpike, ForProvider(rows)(k)) == []
  {
  }

  lemma {:induction false} NoReports<T>(p: Anomaly -> bool, f: T -> seq<Anomaly>, s: seq<T>)
    requires forall k <- s :: |Filter(p, f(k))| == 0
    ensures |Filter(p, FlatMap(f, s))| == 0
  {
    if s != [] {
      NoReports(p, f, s[..|s| - 1]);
      FilterConcat(p, FlatMap(f, s[..|s| - 1]), f(s[|s| - 1]));
    }
  }

  lemma FirstTwentyFilter(p: Anomaly -> bool, s: seq<Anomaly>)
    ensures |Filter(p, First20(s))| <= |Filter(p, s)|
  {
    if |s| > 20 {
      FilterConcat(p, s[..20], s[20..]);
      assert s == s[..20] + s[20..];
    }
  }

  lemma RunCostNonNegative(rows: seq<UsageRow>, k: int)
    requires forall r <- rows :: r.cost >= 0.0
    ensures RunCosts(rows)(k) >= 0.0
  {
    GroupMembers(RunId, rows, k);
    SumNonNegative(Cost, Group(RunId, rows, k));
  }

  lemma TotalReports<S, T>(p: Anomaly -> bool, f: S -> seq<Anomaly>, q: S -> bool, s: seq<S>, g: T -> seq<Anomaly>,
                           t: seq<T>)
    requires forall k <- s :: |Filter(p, f(k))| == if q(k) then 1 else 0
    requires forall k <- t :: |Filter(p, g(k))| == 0
    ensures |Filter(p, FlatMap(f, s) + FlatMap(g, t))| == |Filter(q, s)|
  {
    ReportCount(p, f, q, s);
    NoReports(p, g, t);
    FilterConcat(p, FlatMap(f, s), FlatMap(g, t));
  }

  lemma ReportOrderLength(rows: seq<UsageRow>)
    requires rows != []
    ensures |ReportOrder(rows)| == |Runs(rows)| > 0
  {
    SortLaws(ById, Runs(rows));
    KeysMembers(RunId, rows);
    assert rows[0] in rows && RunId(rows[0]) in Runs(rows);
  }

  lemma ReportedRunHasRows(rows: seq<UsageRow>, k: int)
    requires k in ReportOrder(rows)
    ensures Group(RunId, rows, k) != []
  {
    SortLaws(ById, Runs(rows));
    KeysMembers(RunId, rows);
    var r :| r in rows && RunId(r) == k;
    GroupMembers(RunId, rows, k);
  }

  lemma MeanAddsUp(total: real, n: int)
    requires n > 0
    ensures AddUp(total / Max(n, 1) as real, n) == total
    ensures total >= 0.0 ==> total / Max(n, 1) as real >= 0.0
  {
    AddUpIsProduct(total / n as real, n);
  }

  lemma ReportOrderMean(rows: seq<UsageRow>) returns (average: real, runs: nat)
    requires rows != []
    ensures average == Average(rows) && runs == |Runs(rows)| == |ReportOrder(rows)| > 0
    ensures SumBy(RunCosts(rows), ReportOrder(rows)) == AddUp(average, runs)
    ensures SumBy(RunCosts(rows), ReportOrder(rows)) >= 0.0 ==> average >= 0.0
  {
    average, runs := Average(rows), |Runs(rows)|;
    ReportOrderLength(rows);
    SortLaws(ById, Runs(rows));
    SumPermutation(RunCosts(rows), ReportOrder(rows), Runs(rows));
    MeanAddsUp(SumBy(RunCosts(rows), Runs(rows)), runs);
  }

  lemma SpikeCount(rows: seq<UsageRow>, average: real, runs: nat)
    ensures |Filter(IsSpike, AnomaliesAt(rows, average, runs))|
         == |Filter(SpikeRun(RunCosts(rows), average, runs), ReportOrder(rows))|
    ensures |Filter(IsDangerSpike, AnomaliesAt(rows, average, runs))|
         == |Filter(DangerRun(RunCosts(rows), average, runs), ReportOrder(rows))|
  {
    var f, g := ForRun(rows, average, runs), ForProvider(rows);
    var spikes, dangers := SpikeRun(RunCosts(rows), average, runs), DangerRun(RunCosts(rows), average, runs);
    var sorted, providers := ReportOrder(rows), Keys(ProviderOf, rows);
    forall k | k in sorted
      ensures |Filter(IsSpike, f(k))| == if spikes(k) then 1 else 0
      ensures |Filter(IsDangerSpike, f(k))| == if dangers(k) then 1 else 0
    {
      ReportedRunHasRows(rows, k);
      RunReports(rows, average, runs, k);
    }
    forall k ensures |Filter(IsSpike, g(k))| == 0 && |Filter(IsDangerSpike, g(k))| == 0 {
      ProviderReports(rows, k);
    }
    TotalReports(IsSpike, f, spikes, sorted, g, providers);
    TotalReports(IsDangerSpike, f, dangers, sorted, g, providers);
  }

  lemma FewSpikes(costs: int -> real, s: seq<int>, average: real)
    requires |s| >= 2 && average >= 0.0 && SumBy(costs, s) == AddUp(average, |s|)
    requires forall k <- s :: costs(k) >= 0.0
    ensures 2 * |Filter(SpikeRun(costs, average, |s|), s)| < |s|
    ensures 4 * |Filter(DangerRun(costs, average, |s|), s)| < |s|
  {
    var spikes, dangers := SpikeRun(costs, average, |s|), DangerRun(costs, average, |s|);
    var t, u := Larger(average * 2.0, 0.05), Larger(average * 4.0, 0.5);
    forall k | k in s ensures costs(k) >= 0.0 && (spikes(k) ==> costs(k) > t) && (dangers(k) ==> costs(k) > u) {
    }
    MarkovBound(costs, spikes, s, average, t);
    MarkovBound(costs, dangers, s, average, u);
  }

  /** With non-negative costs and n >= 2 runs, fewer than n / 2 runs are spikes and fewer than n / 4 dangerous
      ones, so the report holds no more of either. */
  lemma SpikesAreRare(rows: seq<UsageRow>)
    requires forall r <- rows :: r.cost >= 0.0
    requires |Runs(rows)| >= 2
    ensures 2 * |Filter(IsSpike, AllAnomalies(rows))| < |Runs(rows)|
    ensures 4 * |Filter(IsDangerSpike, AllAnomalies(rows))| < |Runs(rows)|
    ensures |Filter(IsSpike, First20(AllAnomalies(rows)))| <= |Filter(IsSpike, AllAnomalies(rows))|
    ensures |Filter(IsDangerSpike, First20(AllAnomalies(rows)))| <= |Filter(IsDangerSpike, AllAnomalies(rows))|
  {
    assert rows != [];
    var average, runs := ReportOrderMean(rows);
    forall k ensures RunCosts(rows)(k) >= 0.0 {
      RunCostNonNegative(rows, k);
    }
    SumNonNegative(RunCosts(rows), ReportOrder(rows));
    FewSpikes(RunCosts(rows), ReportOrder(rows), average);
    SpikeCount(rows, average, runs);
    FirstTwentyFilter(IsSpike, AnomaliesAt(rows, average, runs));
    FirstTwentyFilter(IsDangerSpike, AnomaliesAt(rows, average, runs));
  }

  lemma {:induction false} SumOfOne<T>(f: T -> real, s: seq<T>)
    requires |s| == 1
    ensures SumBy(f, s) == f(s[0])
  {
    assert s[..0] == [];
  }

  /** A filter sees the same in a report cut to 20 as long as everything it selects comes first. */
  lemma CutReport(p: Anomaly -> bool, first: seq<Anomaly>, rest: seq<Anomaly>)
    requires |first| <= 20 && Filter(p, rest) == []
    ensures Filter(p, First20(first + rest)) == Filter(p, first + rest) == Filter(p, first)
  {
    FilterConcat(p, first, rest);
    if |first + rest| > 20 {
      var kept := rest[..20 - |first|];
      assert rest == kept + rest[|kept|..] && (first + rest)[..20] == first + kept;
      FilterConcat(p, kept, rest[|kept|..]);
      FilterConcat(p, first, kept);
    }
  }

  lemma {:induction false} FlatMapOfOne<T, U>(f: T -> seq<U>, s: seq<T>)
    requires |s| == 1
    ensures FlatMap(f, s) == f(s[0])
  {
    assert s[..0] == [];
  }

  /** With a single run nothing is cut: its spike, if there is one, is in the report. */
  lemma SingleRunReported(rows: seq<UsageRow>)
    requires |Runs(rows)| == 1
    ensures Filter(IsSpike, First20(AllAnomalies(rows))) == Filter(IsSpike, AllAnomalies(rows))
    ensures Filter(IsDangerSpike, First20(AllAnomalies(rows))) == Filter(IsDangerSpike, AllAnomalies(rows))
  {
    var f, g := ForRun(rows, Average(rows), 1), ForProvider(rows);
    var providers := Keys(ProviderOf, rows);
    forall k ensures |Filter(IsSpike, g(k))| == 0 && |Filter(IsDangerSpike, g(k))| == 0 {
      ProviderReports(rows, k);
    }
    NoReports(IsSpike, g, providers);
    NoReports(IsDangerSpike, g, providers);
    SortLaws(ById, Runs(rows));
    FlatMapOfOne(f, ReportOrder(rows));
    CutReport(IsSpike, FlatMap(f, ReportOrder(rows)), FlatMap(g, providers));
    CutReport(IsDangerSpike, FlatMap(f, ReportOrder(rows)), FlatMap(g, providers));
  }

  /** A single run costs what all rows cost, which is also the average. */
  lemma SingleRunCost(rows: seq<UsageRow>)
    requires |Runs(rows)| == 1
    ensures ReportOrder(rows) == [ReportOrder(rows)[0]]
    ensures RunCosts(rows)(ReportOrder(rows)[0]) == SumBy(Cost, rows) == Average(rows)
  {
    assert rows != [];
    var average, runs := ReportOrderMean(rows);
    var costs, sorted := RunCosts(rows), ReportOrder(rows);
    PartitionSum(RunId, Cost, rows);
    SortLaws(ById, Runs(rows));
    SumPermutation(costs, sorted, Runs(rows));
    SumOfOne(costs, sorted);
    assert AddUp(average, 1) == AddUp(average, 0) + average;
  }

  lemma SingleRunThreshold(cost: real)
    ensures Spikes(cost, cost, 1) <==> cost > 0.5
    ensures !Dangerous(cost, cost)
  {
  }

  /** A window with a single run, of any cost, reports a spike exactly when it cost more than half a dollar, and
      never a dangerous one. */
  lemma SingleRunSpike(rows: seq<UsageRow>)
    requires |Runs(rows)| == 1
    ensures Filter(IsSpike, First20(AllAnomalies(rows))) != [] <==> SumBy(Cost, rows) > 0.5
    ensures Filter(IsDangerSpike, First20(AllAnomalies(rows))) == []
  {
    var average, k := Average(rows), ReportOrder(rows)[0];
    SingleRunReported(rows);
    SingleRunCost(rows);
    SingleRunThreshold(average);
    SpikeCount(rows, average, 1);
    FilterOfOne(SpikeRun(RunCosts(rows), average, 1), k);
    FilterOfOne(DangerRun(RunCosts(rows), average, 1), k);
  }
}
