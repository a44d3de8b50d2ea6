/** round(x, 6) over exact reals: nearest multiple of a millionth, ties to even. */
module Rounding {
  import opened Sums

  const SCALE: real := 1000000.0
  const HALF_STEP: real := 0.0000005

  function HalfEven(y: real): int {
    var f := y.Floor;
    var d := y - f as real;
    if d < 0.5 || (d == 0.5 && f % 2 == 0) then f else f + 1
  }

  function Round6(x: real): real {
    HalfEven(x * SCALE) as real / SCALE
  }

  predicate OnGrid(x: real) {
    (x * SCALE).Floor as real == x * SCALE
  }

  /** Rounding moves a value by at most half a step, keeps order, lands on the grid and keeps the grid fixed; a value
      halfway between two grid points goes to the even one. */
  lemma Round6Laws(x: real, y: real)
    ensures x - HALF_STEP <= Round6(x) <= x + HALF_STEP
    ensures x <= y ==> Round6(x) <= Round6(y)
    ensures OnGrid(Round6(x))
    ensures OnGrid(x) ==> Round6(x) == x
    ensures x >= 0.0 ==> Round6(x) >= 0.0
    ensures Round6(x) == x + HALF_STEP || Round6(x) == x - HALF_STEP ==> (Round6(x) * SCALE).Floor % 2 == 0
  {
    assert Round6(x) * SCALE == HalfEven(x * SCALE) as real;
    assert x <= y ==> x * SCALE <= y * SCALE;
    assert x * SCALE <= y * SCALE ==> HalfEven(x * SCALE) <= HalfEven(y * SCALE);
    assert x >= 0.0 ==> HalfEven(x * SCALE) >= 0;
  }

  lemma WholeAdd(a: real, b: real, m: int, n: int)
    requires a == m as real && b == n as real
    ensures (a + b).Floor as real == a + b
  {
    assert a + b == (m + n) as real;
  }

  lemma GridAdd(x: real, y: real)
    requires OnGrid(x) && OnGrid(y)
    ensures OnGrid(x + y)
  {
    WholeAdd(x * SCALE, y * SCALE, (x * SCALE).Floor, (y * SCALE).Floor);
    assert (x + y) * SCALE == x * SCALE + y * SCALE;
  }

  lemma {:induction false} SumOnGrid<T>(f: T -> real, s: seq<T>)
    requires forall x <- s :: OnGrid(f(x))
    ensures OnGrid(SumBy(f, s))
  {
    if s != [] {
      SumOnGrid(f, s[..|s| - 1]);
      GridAdd(SumBy(f, s[..|s| - 1]), f(s[|s| - 1]));
    }
  }

  /** Rounding every term moves the sum by at most half a step per term. */
  lemma {:induction false} RoundedSumBound<T>(f: T -> real, g: T -> real, s: seq<T>)
    requires forall x <- s :: g(x) == Round6(f(x))
    ensures SumBy(f, s) - |s| as real * HALF_STEP <= SumBy(g, s) <= SumBy(f, s) + |s| as real * HALF_STEP
  {
    if s != [] {
      var init, last := s[..|s| - 1], s[|s| - 1];
      RoundedSumBound(f, g, init);
      Round6Laws(f(last), f(last));
    }
  }
}

/** costs/attribution.py: usage rows grouped into an attribution summary. */
module Attribution {
  import opened Common
  import opened DecimalText
  import opened Sums
  import opened Sorting
  import opened Partition
  import opened Rounding

  datatype GroupBy = ByAgent | ByDeployment | ByRun | ByProvider | ByModel

  datatype UsageRow = UsageRow(
    runId: int, agentId: int, deploymentId: Option<int>, environment: Option<string>,
    provider: Option<string>, model: Option<string>,
    cost: real, tokens: int, status: string, createdAt: int)

  datatype Breakdown = Breakdown(
    groupBy: GroupBy, key: string, title: string, totalCost: real, totalTokens: int,
    runCount: nat, failedRunCount: nat, latestRunId: Option<int>, latestAt: Option<int>)

  datatype Summary = Summary(
    windowDays: int, groupBy: GroupBy, totalCost: real, totalTokens: int,
    runCount: nat, failedRunCount: nat, breakdown: seq<Breakdown>)

  function Cost(r: UsageRow): real { r.cost }
  function Tokens(r: UsageRow): int { r.tokens }
  function RunId(r: UsageRow): int { r.runId }
  predicate AnyRow(r: UsageRow) { true }
  predicate Failed(r: UsageRow) { r.status == "failed" }

  /** x or fallback, for an optional string */
  function OrElse(x: Option<string>, fallback: string): string {
    if x.Some? && x.value != "" then x.value else fallback
  }

  /** A deployment id of 0 is falsy, so it shares the key of the unbound rows. */
  function KeyOf(g: GroupBy, r: UsageRow): string {
    match g
    case ByAgent => IntText(r.agentId)
    case ByDeployment =>
      if r.deploymentId.Some? && r.deploymentId.value != 0 then IntText(r.deploymentId.value) else "unbound"
    case ByRun => IntText(r.runId)
    case ByProvider => OrElse(r.provider, "unknown")
    case ByModel => OrElse(r.model, "unknown")
  }

  function BoundTo(r: UsageRow): Option<int> {
    if r.deploymentId.Some? && r.deploymentId.value != 0 then r.deploymentId else None
  }

  lemma NumberIsNotUnbound(n: int)
    ensures IntText(n) != "unbound"
  {
    NatTextDigits(if n < 0 then -n else n);
    assert IntText(n)[0] != 'u' && "unbound"[0] == 'u';
  }

  /** Deployment groups are exactly the deployments, with id 0, which the deployment store never allots, and no
      deployment in one group. */
  lemma DeploymentKeyExact(r: UsageRow, r': UsageRow)
    ensures KeyOf(ByDeployment, r) == KeyOf(ByDeployment, r') <==> BoundTo(r) == BoundTo(r')
  {
    forall n ensures IntText(n) != "unbound" {
      NumberIsNotUnbound(n);
    }
    if BoundTo(r).Some? && BoundTo(r').Some? && KeyOf(ByDeployment, r) == KeyOf(ByDeployment, r') {
      IntTextInjective(BoundTo(r).value, BoundTo(r').value);
    }
  }

  function LabelOf(g: GroupBy, r: UsageRow): string {
    match g
    case ByAgent => "Agent #" + IntText(r.agentId)
    case ByDeployment => if r.deploymentId.Some? then "Deployment #" + IntText(r.deploymentId.value) else "Unbound"
    case ByRun => "Run #" + IntText(r.runId)
    case _ => KeyOf(g, r)
  }

  function KeyFn(g: GroupBy): UsageRow -> string {
    r => KeyOf(g, r)
  }

  function CaptionFn(g: GroupBy): UsageRow -> string {
    r => LabelOf(g, r)
  }

  function RowsOf(g: GroupBy, rows: seq<UsageRow>, k: string): seq<UsageRow> {
    Group(KeyFn(g), rows, k)
  }

  /** max(items, key=created_at): the newest row, the first of several equally new ones. */
  function NewestIndex(items: seq<UsageRow>): (i: nat)
    requires items != []
    ensures i < |items|
    ensures forall j :: 0 <= j < |items| ==> items[j].createdAt <= items[i].createdAt
    ensures forall j :: 0 <= j < i ==> items[j].createdAt < items[i].createdAt
  {
    var n := |items| - 1;
    if n == 0 then 0
    else
      var i := NewestIndex(items[..n]);
      if items[i].createdAt < items[n].createdAt then n else i
  }

  function Newest(items: seq<UsageRow>): UsageRow
    requires items != []
  {
    items[NewestIndex(items)]
  }

  datatype Entry = Entry(key: string, title: string, rows: seq<UsageRow>)

  function EntryCost(e: Entry): real { SumBy(Cost, e.rows) }

  /** The dict of lists, in insertion order; the last row of a group decides its label. */
  function EntryFor(g: GroupBy, rows: seq<UsageRow>): string -> Entry {
    k => var items := RowsOf(g, rows, k);
         Entry(k, if items == [] then "" else LabelOf(g, items[|items| - 1]), items)
  }

  function Entries(g: GroupBy, rows: seq<UsageRow>): seq<Entry> {
    MapSeq(EntryFor(g, rows), Keys(KeyFn(g), rows))
  }

  function ViewOf(g: GroupBy): Entry -> Breakdown {
    (e: Entry) => Breakdown(g, e.key, e.title, Round6(SumBy(Cost, e.rows)), CountBy(Tokens, e.rows),
                   |Tags(AnyRow, RunId, e.rows)|, |Tags(Failed, RunId, e.rows)|,
                   if e.rows == [] then None else Some(Newest(e.rows).runId),
                   if e.rows == [] then None else Some(Newest(e.rows).createdAt))
  }

  function SummaryFrom(entries: seq<Entry>, rows: seq<UsageRow>, windowDays: int, g: GroupBy): Summary {
    Summary(windowDays, g, Round6(SumBy(Cost, rows)), CountBy(Tokens, rows),
            |Tags(AnyRow, RunId, rows)|, |Tags(Failed, RunId, rows)|,
            MapSeq(ViewOf(g), SortDescending(EntryCost, entries)))
  }

  function Summarize(rows: seq<UsageRow>, windowDays: int, g: GroupBy): Summary {
    SummaryFrom(Entries(g, rows), rows, windowDays, g)
  }

  /** The two dicts read side by side. */
  function EntriesFrom(order: seq<string>, grouped: map<string, seq<UsageRow>>, labels: map<string, string>): seq<Entry>
    requires forall k <- order :: k in grouped && k in labels
  {
    seq(|order|, i requires 0 <= i < |order| => Entry(order[i], labels[order[i]], grouped[order[i]]))
  }

  lemma EntryAgrees(g: GroupBy, rows: seq<UsageRow>, grouped: map<string, seq<UsageRow>>, labels: map<string, string>,
                    k: string)
    requires TalliedKey(KeyFn(g), CaptionFn(g), rows, grouped, labels, k) && k in Keys(KeyFn(g), rows)
    ensures k in grouped && k in labels && Entry(k, labels[k], grouped[k]) == EntryFor(g, rows)(k)
  {
  }

  lemma EntriesAgree(g: GroupBy, rows: seq<UsageRow>, order: seq<string>, grouped: map<string, seq<UsageRow>>,
                     labels: map<string, string>)
    requires forall k <- order :: k in grouped && k in labels && Entry(k, labels[k], grouped[k]) == EntryFor(g, rows)(k)
    ensures EntriesFrom(order, grouped, labels) == MapSeq(EntryFor(g, rows), order)
  {
    var f := EntryFor(g, rows);
    forall i | 0 <= i < |order| ensures EntriesFrom(order, grouped, labels)[i] == MapSeq(f, order)[i] {
      assert order[i] in order;
    }
  }

  method BuildSummary(rows: seq<UsageRow>, windowDays: int, g: GroupBy) returns (s: Summary)
    ensures s == Summarize(rows, windowDays, g)
  {
    var order, grouped, labels := GroupLoop(KeyFn(g), CaptionFn(g), rows);
    forall k | k in order
      ensures k in grouped && k in labels && Entry(k, labels[k], grouped[k]) == EntryFor(g, rows)(k)
    {
      assert TalliedKey(KeyFn(g), CaptionFn(g), rows, grouped, labels, k);
      EntryAgrees(g, rows, grouped, labels, k);
    }
    EntriesAgree(g, rows, order, grouped, labels);
    s := SummaryFrom(EntriesFrom(order, grouped, labels), rows, windowDays, g);
  }

  function TotalCost(b: Breakdown): real { b.totalCost }
  function TotalTokens(b: Breakdown): int { b.totalTokens }
  function RunCount(b: Breakdown): int { b.runCount }
  function FailedRunCount(b: Breakdown): int { b.failedRunCount }

  /** A sum over the sorted breakdown is the sum over the keys: sorting and viewing change no total. */
  lemma BreakdownSum(rows: seq<UsageRow>, windowDays: int, g: GroupBy, f: Breakdown -> real, h: string -> real)
    requires forall k <- Keys(KeyFn(g), rows) :: h(k) == f(ViewOf(g)(EntryFor(g, rows)(k)))
    ensures SumBy(f, Summarize(rows, windowDays, g).breakdown) == SumBy(h, Keys(KeyFn(g), rows))
  {
    var entries := Entries(g, rows);
    var sorted := SortDescending(EntryCost, entries);
    var m := (e: Entry) => f(ViewOf(g)(e));
    SumOfMapped(f, ViewOf(g), m, sorted);
    SortLaws(EntryCost, entries);
    SumPermutation(m, sorted, entries);
    SumOfMapped(m, EntryFor(g, rows), h, Keys(KeyFn(g), rows));
  }

  lemma BreakdownCount(rows: seq<UsageRow>, windowDays: int, g: GroupBy, f: Breakdown -> int, h: string -> int)
    requires forall k <- Keys(KeyFn(g), rows) :: h(k) == f(ViewOf(g)(EntryFor(g, rows)(k)))
    ensures CountBy(f, Summarize(rows, windowDays, g).breakdown) == CountBy(h, Keys(KeyFn(g), rows))
  {
    var fr, hr := (b: Breakdown) => f(b) as real, (k: string) => h(k) as real;
    BreakdownSum(rows, windowDays, g, fr, hr);
    CountAsSum(f, fr, Summarize(rows, windowDays, g).breakdown);
    CountAsSum(h, hr, Keys(KeyFn(g), rows));
  }

  function BreakdownFor(rows: seq<UsageRow>, g: GroupBy, k: string): Breakdown {
    ViewOf(g)(EntryFor(g, rows)(k))
  }

  /** Viewing a sorted list keeps one view per element, and their order by what the view does to weights. */
  lemma SortedViews<E, B>(weight: E -> real, view: E -> B, cost: B -> real, entries: seq<E>)
    requires forall e, e' :: weight(e) <= weight(e') ==> cost(view(e)) <= cost(view(e'))
    ensures var bs := MapSeq(view, SortDescending(weight, entries));
      && |bs| == |entries| && Descending(cost, bs)
      && (forall e <- entries :: view(e) in bs) && (forall b <- bs :: exists e <- entries :: b == view(e))
  {
    var sorted := SortDescending(weight, entries);
    var bs := MapSeq(view, sorted);
    SortLaws(weight, entries);
    forall e | e in entries ensures view(e) in bs {
      assert e in multiset(sorted);
      var j :| 0 <= j < |sorted| && sorted[j] == e;
      assert bs[j] == view(e);
    }
    forall b | b in bs ensures exists e <- entries :: b == view(e) {
      var j :| 0 <= j < |bs| && bs[j] == b;
      assert sorted[j] in entries && b == view(sorted[j]);
    }
  }

  lemma KeyedViews<K, E, B>(weight: E -> real, view: E -> B, cost: B -> real, f: K -> E, ks: seq<K>)
    requires forall e, e' :: weight(e) <= weight(e') ==> cost(view(e)) <= cost(view(e'))
    ensures var bs := MapSeq(view, SortDescending(weight, MapSeq(f, ks)));
      && |bs| == |ks| && Descending(cost, bs)
      && (forall k <- ks :: view(f(k)) in bs) && (forall b <- bs :: exists k <- ks :: b == view(f(k)))
  {
    var entries := MapSeq(f, ks);
    var bs := MapSeq(view, SortDescending(weight, entries));
    SortedViews(weight, view, cost, entries);
    forall k | k in ks ensures view(f(k)) in bs {
      var i :| 0 <= i < |ks| && ks[i] == k;
      assert entries[i] in entries;
    }
    forall b | b in bs ensures exists k <- ks :: b == view(f(k)) {
      var e :| e in entries && b == view(e);
      var i :| 0 <= i < |entries| && entries[i] == e;
      assert ks[i] in ks;
    }
  }

  lemma ViewKeepsOrder(g: GroupBy, e: Entry, e': Entry)
    ensures EntryCost(e) <= EntryCost(e') ==> TotalCost(ViewOf(g)(e)) <= TotalCost(ViewOf(g)(e'))
  {
    Round6Laws(EntryCost(e), EntryCost(e'));
  }

  lemma BreakdownKey(rows: seq<UsageRow>, g: GroupBy, k: string)
    ensures BreakdownFor(rows, g, k).key == k
  {
  }

  /** The breakdown holds exactly one entry for each key that occurs, computed from exactly that key's rows,
      and is ordered by cost, the dearest first. */
  lemma BreakdownExact(rows: seq<UsageRow>, windowDays: int, g: GroupBy)
    ensures var bs, ks := Summarize(rows, windowDays, g).breakdown, Keys(KeyFn(g), rows);
      && |bs| == |ks| && Distinct(ks) && Descending(TotalCost, bs)
      && (forall k <- ks :: BreakdownFor(rows, g, k) in bs)
      && (forall b <- bs :: b.key in ks && b == BreakdownFor(rows, g, b.key))
  {
    var ks, bs := Keys(KeyFn(g), rows), Summarize(rows, windowDays, g).breakdown;
    KeysMembers(KeyFn(g), rows);
    forall e, e' ensures EntryCost(e) <= EntryCost(e') ==> TotalCost(ViewOf(g)(e)) <= TotalCost(ViewOf(g)(e')) {
      ViewKeepsOrder(g, e, e');
    }
    KeyedViews(EntryCost, ViewOf(g), TotalCost, EntryFor(g, rows), ks);
    forall b | b in bs ensures b.key in ks && b == BreakdownFor(rows, g, b.key) {
      var k :| k in ks && b == ViewOf(g)(EntryFor(g, rows)(k));
      BreakdownKey(rows, g, k);
    }
  }

  // ---- What a summary says, without its keys ----

  function NameOf(x: Option<string>): string {
    if x.None? || x.value == "" then "unknown" else x.value
  }

  /** Which rows a grouping puts together. */
  predicate Together(g: GroupBy, r: UsageRow, x: UsageRow) {
    match g
    case ByAgent => r.agentId == x.agentId
    case ByDeployment => BoundTo(r) == BoundTo(x)
    case ByRun => r.runId == x.runId
    case ByProvider => NameOf(r.provider) == NameOf(x.provider)
    case ByModel => NameOf(r.model) == NameOf(x.model)
  }

  lemma NumbersTellApart(m: int, n: int)
    ensures IntText(m) == IntText(n) <==> m == n
  {
    if IntText(m) == IntText(n) {
      IntTextInjective(m, n);
    }
  }

  lemma KeysTellApart(g: GroupBy, r: UsageRow, x: UsageRow)
    ensures KeyOf(g, r) == KeyOf(g, x) <==> Together(g, r, x)
  {
    NumbersTellApart(r.agentId, x.agentId);
    NumbersTellApart(r.runId, x.runId);
    DeploymentKeyExact(r, x);
  }

  /** The rows a grouping puts together with this one. */
  function Mates(g: GroupBy, rows: seq<UsageRow>, r: UsageRow): seq<UsageRow> {
    Filter((x: UsageRow) => Together(g, r, x), rows)
  }

  lemma MatesAreGroup(g: GroupBy, rows: seq<UsageRow>, r: UsageRow)
    ensures RowsOf(g, rows, KeyOf(g, r)) == Mates(g, rows, r)
    ensures r in rows ==> r in Mates(g, rows, r)
  {
    var q := (x: UsageRow) => Together(g, r, x);
    forall x | x in rows ensures q(x) <==> KeyFn(g)(x) == KeyOf(g, r) {
      KeysTellApart(g, r, x);
      assert KeyFn(g)(x) == KeyOf(g, x);
    }
    GroupIs(KeyFn(g), rows, KeyOf(g, r), q);
    FilterMembers(q, rows);
    assert Together(g, r, r);
  }

  function Title(g: GroupBy, r: UsageRow): string {
    match g
    case ByAgent => "Agent #" + IntText(r.agentId)
    case ByDeployment => if r.deploymentId.None? then "Unbound" else "Deployment #" + IntText(r.deploymentId.value)
    case ByRun => "Run #" + IntText(r.runId)
    case ByProvider => NameOf(r.provider)
    case ByModel => NameOf(r.model)
  }

  /** The figures of an entry are those of these rows: cost and tokens summed, runs and failed runs counted once each,
      the newest row named, and the title that of the last row. */
  predicate Describes(b: Breakdown, g: GroupBy, mates: seq<UsageRow>) {
    && b.groupBy == g && mates != [] && b.title == Title(g, mates[|mates| - 1])
    && b.totalCost == Round6(SumBy((x: UsageRow) => x.cost, mates))
    && b.totalTokens == CountBy((x: UsageRow) => x.tokens, mates)
    && b.runCount == |set x | x in mates :: x.runId|
    && b.failedRunCount == |set x | x in mates && x.status == "failed" :: x.runId|
    && b.latestRunId.Some? && b.latestAt.Some? && (forall x <- mates :: x.createdAt <= b.latestAt.value)
    && (exists x <- mates :: x.runId == b.latestRunId.value && x.createdAt == b.latestAt.value)
  }

  lemma TagSets(rows: seq<UsageRow>)
    ensures Tags(AnyRow, RunId, rows) == set x | x in rows :: x.runId
    ensures Tags(Failed, RunId, rows) == set x | x in rows && x.status == "failed" :: x.runId
  {
  }

  lemma ViewDescribes(g: GroupBy, k: string, rows: seq<UsageRow>)
    requires rows != []
    ensures Describes(ViewOf(g)(Entry(k, LabelOf(g, rows[|rows| - 1]), rows)), g, rows)
  {
    TagSets(rows);
    SumCongruence(Cost, (x: UsageRow) => x.cost, rows);
    CountCongruence(Tokens, (x: UsageRow) => x.tokens, rows);
    assert Newest(rows) in rows;
  }

  lemma OwnBreakdown(rows: seq<UsageRow>, g: GroupBy, r: UsageRow)
    requires r in rows
    ensures Describes(BreakdownFor(rows, g, KeyOf(g, r)), g, Mates(g, rows, r))
  {
    MatesAreGroup(g, rows, r);
    var mates, k := Mates(g, rows, r), KeyOf(g, r);
    assert EntryFor(g, rows)(k) == Entry(k, LabelOf(g, mates[|mates| - 1]), mates);
    ViewDescribes(g, k, mates);
  }

  /** Every row has its entry in the breakdown, and that entry describes exactly the rows put together with it. */
  lemma EntryExact(rows: seq<UsageRow>, windowDays: int, g: GroupBy, r: UsageRow)
    requires r in rows
    ensures var b := BreakdownFor(rows, g, KeyOf(g, r));
      b in Summarize(rows, windowDays, g).breakdown && Describes(b, g, Mates(g, rows, r))
  {
    BreakdownExact(rows, windowDays, g);
    KeysMembers(KeyFn(g), rows);
    assert KeyFn(g)(r) == KeyOf(g, r);
    assert KeyOf(g, r) in Keys(KeyFn(g), rows);
    OwnBreakdown(rows, g, r);
  }

  /** And there are no other entries. */
  lemma NoOtherEntries(rows: seq<UsageRow>, windowDays: int, g: GroupBy, b: Breakdown)
    requires b in Summarize(rows, windowDays, g).breakdown
    ensures exists r <- rows :: b == BreakdownFor(rows, g, KeyOf(g, r))
  {
    BreakdownExact(rows, windowDays, g);
    KeysMembers(KeyFn(g), rows);
    var r :| r in rows && KeyFn(g)(r) == b.key;
    assert KeyOf(g, r) == b.key;
  }

  /** The totals are those of all rows. */
  lemma TotalsExact(rows: seq<UsageRow>, windowDays: int, g: GroupBy)
    ensures var s := Summarize(rows, windowDays, g);
      && s.windowDays == windowDays && s.groupBy == g
      && s.totalCost == Round6(SumBy((x: UsageRow) => x.cost, rows))
      && s.totalTokens == CountBy((x: UsageRow) => x.tokens, rows)
      && s.runCount == |set x | x in rows :: x.runId|
      && s.failedRunCount == |set x | x in rows && x.status == "failed" :: x.runId|
  {
    TagSets(rows);
    SumCongruence(Cost, (x: UsageRow) => x.cost, rows);
    CountCongruence(Tokens, (x: UsageRow) => x.tokens, rows);
  }

  /** Each row's run id fixes its agent, deployment and status, as the loader guarantees. */
  predicate RunBound(rows: seq<UsageRow>) {
    forall i, j :: 0 <= i < |rows| && 0 <= j < |rows| && rows[i].runId == rows[j].runId ==>
      && rows[i].agentId == rows[j].agentId && rows[i].deploymentId == rows[j].deploymentId
      && rows[i].status == rows[j].status
  }

  /** Token totals of the groups add up exactly. */
  lemma TokensConserved(rows: seq<UsageRow>, windowDays: int, g: GroupBy)
    ensures var s := Summarize(rows, windowDays, g);
      CountBy(TotalTokens, s.breakdown) == s.totalTokens
  {
    BreakdownCount(rows, windowDays, g, TotalTokens, GroupCount(KeyFn(g), Tokens, rows));
    PartitionCount(KeyFn(g), Tokens, rows);
  }

  /** Run counts never add up to less than the total, and exactly to it when and only when no run has
      rows in two groups. */
  lemma RunCountsConserved(rows: seq<UsageRow>, windowDays: int, g: GroupBy)
    ensures var s := Summarize(rows, windowDays, g);
      && CountBy(RunCount, s.breakdown) >= s.runCount
      && CountBy(FailedRunCount, s.breakdown) >= s.failedRunCount
      && (CountBy(RunCount, s.breakdown) == s.runCount <==> OneGroupPerTag(AnyRow, RunId, KeyFn(g), rows))
      && (CountBy(FailedRunCount, s.breakdown) == s.failedRunCount <==> OneGroupPerTag(Failed, RunId, KeyFn(g), rows))
  {
    BreakdownCount(rows, windowDays, g, RunCount, GroupTags(AnyRow, RunId, KeyFn(g), rows));
    BreakdownCount(rows, windowDays, g, FailedRunCount, GroupTags(Failed, RunId, KeyFn(g), rows));
    PartitionDistinct(AnyRow, RunId, KeyFn(g), rows);
    PartitionDistinct(Failed, RunId, KeyFn(g), rows);
  }

  /** For agent, deployment and run groupings of loaded rows the run counts add up exactly. */
  lemma RunCountsExact(rows: seq<UsageRow>, windowDays: int, g: GroupBy)
    requires RunBound(rows) && (g.ByAgent? || g.ByDeployment? || g.ByRun?)
    ensures var s := Summarize(rows, windowDays, g);
      CountBy(RunCount, s.breakdown) == s.runCount && CountBy(FailedRunCount, s.breakdown) == s.failedRunCount
  {
    RunCountsConserved(rows, windowDays, g);
    forall x, y | x in rows && y in rows && RunId(x) == RunId(y) ensures KeyFn(g)(x) == KeyFn(g)(y) {
      var i :| 0 <= i < |rows| && rows[i] == x;
      var j :| 0 <= j < |rows| && rows[j] == y;
    }
  }

  /** A run that used two providers (or two models) is counted once in the total and in each group. */
  lemma SpreadRunExceeds(rows: seq<UsageRow>, windowDays: int, g: GroupBy, i: nat, j: nat)
    requires i < |rows| && j < |rows| && rows[i].runId == rows[j].runId
    requires KeyOf(g, rows[i]) != KeyOf(g, rows[j])
    ensures var s := Summarize(rows, windowDays, g); CountBy(RunCount, s.breakdown) > s.runCount
  {
    RunCountsConserved(rows, windowDays, g);
    assert rows[i] in rows && rows[j] in rows;
    assert KeyFn(g)(rows[i]) != KeyFn(g)(rows[j]);
  }

  /** With k groups the rounded group costs add up to the rounded total within (k + 1) half steps. */
  lemma CostsConserved(rows: seq<UsageRow>, windowDays: int, g: GroupBy)
    ensures var s := Summarize(rows, windowDays, g);
      var slack := (|s.breakdown| + 1) as real * HALF_STEP;
      && OnGrid(SumBy(TotalCost, s.breakdown))
      && s.totalCost - slack <= SumBy(TotalCost, s.breakdown) <= s.totalCost + slack
  {
    var ks := Keys(KeyFn(g), rows);
    var exact := GroupSum(KeyFn(g), Cost, rows);
    var rounded := (k: string) => Round6(exact(k));
    BreakdownSum(rows, windowDays, g, TotalCost, rounded);
    PartitionSum(KeyFn(g), Cost, rows);
    RoundedSumBound(exact, rounded, ks);
    Round6Laws(SumBy(Cost, rows), 0.0);
    forall k | k in ks ensures OnGrid(rounded(k)) {
      Round6Laws(exact(k), 0.0);
    }
    SumOnGrid(rounded, ks);
    SortLaws(EntryCost, Entries(g, rows));
  }
}

/** costs/budget_policy.py: a budget's current spend, read off the attribution summary. */
module Budget {
  import opened Common
  import opened DecimalText
  import opened Sums
  import opened Sorting
  import opened Partition
  import opened Rounding
  import opened Attribution

  datatype Scope = TenantScope | ProjectScope | EnvironmentScope | AgentScope | DeploymentScope
  datatype ResetWindow = Daily | Weekly | Monthly
  datatype ActionMode = Warn | Reject | RequireApproval

  datatype Preview = Preview(
    currentSpend: real, projectedSpend: real, utilization: real, wouldTrigger: bool, topContributors: seq<Breakdown>)

  function WindowDays(w: ResetWindow): int {
    match w case Daily => 1 case Weekly => 7 case Monthly => 30
  }

  function GroupByForScope(scope: Scope): GroupBy {
    if scope.AgentScope? then ByAgent else ByDeployment
  }

  predicate WholeScope(scope: Scope, ref: Option<string>) {
    scope.TenantScope? || scope.ProjectScope? || scope.EnvironmentScope? || ref.None?
  }

  predicate Selected(scope: Scope, ref: Option<string>, key: string) {
    WholeScope(scope, ref) || key == ref.value
  }

  function InScope(scope: Scope, ref: Option<string>): Breakdown -> bool {
    (b: Breakdown) => Selected(scope, ref, b.key)
  }

  function FilterBreakdown(items: seq<Breakdown>, scope: Scope, ref: Option<string>): seq<Breakdown> {
    if WholeScope(scope, ref) then items else Filter(InScope(scope, ref), items)
  }

  function Projected(spend: real, window: ResetWindow): real {
    Round6(spend * (30.0 / WindowDays(window) as real))
  }

  function Ratio(spend: real, threshold: real): real {
    if threshold > 0.0 then spend / threshold else 0.0
  }

  /** rows are the usage rows of the window that the reset window selects */
  function BuildPreview(rows: seq<UsageRow>, threshold: real, scope: Scope, ref: Option<string>,
                        window: ResetWindow): Preview {
    var summary := Summarize(rows, WindowDays(window), GroupByForScope(scope));
    var filtered := FilterBreakdown(summary.breakdown, scope, ref);
    var spend := Round6(SumBy(TotalCost, filtered));
    Preview(spend, Projected(spend, window), Ratio(spend, threshold), spend >= threshold,
            if |filtered| <= 5 then filtered else filtered[..5])
  }

  /** What one group contributes to a budget's spend. */
  function SpendTerm(rows: seq<UsageRow>, scope: Scope, ref: Option<string>): string -> real {
    k => if Selected(scope, ref, k) then Round6(SumBy(Cost, RowsOf(GroupByForScope(scope), rows, k))) else 0.0
  }

  function ScopedKeys(rows: seq<UsageRow>, scope: Scope): seq<string> {
    Keys(KeyFn(GroupByForScope(scope)), rows)
  }

  lemma {:induction false} FilterAll<T>(p: T -> bool, s: seq<T>)
    requires forall x <- s :: p(x)
    ensures Filter(p, s) == s
  {
    if s != [] {
      FilterAll(p, s[..|s| - 1]);
      assert s == s[..|s| - 1] + [s[|s| - 1]];
    }
  }

  function ScopedCost(scope: Scope, ref: Option<string>): Breakdown -> real {
    b => if InScope(scope, ref)(b) then TotalCost(b) else 0.0
  }

  lemma FilteredSum(items: seq<Breakdown>, scope: Scope, ref: Option<string>)
    ensures SumBy(TotalCost, FilterBreakdown(items, scope, ref)) == SumBy(ScopedCost(scope, ref), items)
  {
    SumOfFiltered(TotalCost, InScope(scope, ref), ScopedCost(scope, ref), items);
    if WholeScope(scope, ref) {
      FilterAll(InScope(scope, ref), items);
    }
  }

  lemma SpendTermOnGrid(rows: seq<UsageRow>, scope: Scope, ref: Option<string>, k: string)
    ensures OnGrid(SpendTerm(rows, scope, ref)(k))
  {
    Round6Laws(SumBy(Cost, RowsOf(GroupByForScope(scope), rows, k)), 0.0);
  }

  lemma SpendTermView(rows: seq<UsageRow>, scope: Scope, ref: Option<string>, k: string)
    ensures var g := GroupByForScope(scope);
      SpendTerm(rows, scope, ref)(k) == ScopedCost(scope, ref)(ViewOf(g)(EntryFor(g, rows)(k)))
  {
    var g := GroupByForScope(scope);
    var e := EntryFor(g, rows)(k);
    var b := ViewOf(g)(e);
    assert e.key == k && e.rows == RowsOf(g, rows, k);
    assert b.key == k && b.totalCost == Round6(SumBy(Cost, e.rows));
    assert InScope(scope, ref)(b) == Selected(scope, ref, k);
  }

  lemma RawSpend(rows: seq<UsageRow>, scope: Scope, ref: Option<string>, window: ResetWindow)
    ensures SumBy(TotalCost, FilterBreakdown(Summarize(rows, WindowDays(window), GroupByForScope(scope)).breakdown,
                                             scope, ref))
         == SumBy(SpendTerm(rows, scope, ref), ScopedKeys(rows, scope))
  {
    var g, w := GroupByForScope(scope), WindowDays(window);
    forall k ensures SpendTerm(rows, scope, ref)(k) == ScopedCost(scope, ref)(ViewOf(g)(EntryFor(g, rows)(k))) {
      SpendTermView(rows, scope, ref, k);
    }
    BreakdownSum(rows, w, g, ScopedCost(scope, ref), SpendTerm(rows, scope, ref));
    FilteredSum(Summarize(rows, w, g).breakdown, scope, ref);
  }

  /** The spend is the sum of the selected groups' rounded costs: the outer rounding, the sort and the
      list filter add nothing to it. */
  lemma SpendIsSum(rows: seq<UsageRow>, threshold: real, scope: Scope, ref: Option<string>, window: ResetWindow)
    ensures BuildPreview(rows, threshold, scope, ref, window).currentSpend
         == SumBy(SpendTerm(rows, scope, ref), ScopedKeys(rows, scope))
  {
    var term := SpendTerm(rows, scope, ref);
    RawSpend(rows, scope, ref, window);
    forall k ensures OnGrid(term(k)) {
      SpendTermOnGrid(rows, scope, ref, k);
    }
    SumOnGrid(term, ScopedKeys(rows, scope));
    Round6Laws(SumBy(term, ScopedKeys(rows, scope)), 0.0);
  }

  // ---- What a budget measures, without the summary ----

  /** What a budget of this scope counts by: the agent, or else the deployment. */
  function CountedBy(scope: Scope): UsageRow -> string {
    (r: UsageRow) =>
      if scope.AgentScope? then IntText(r.agentId)
      else if r.deploymentId.None? || r.deploymentId.value == 0 then "unbound"
      else IntText(r.deploymentId.value)
  }

  /** A reference narrows an agent or deployment budget down to one of them. */
  predicate Narrowed(scope: Scope, ref: Option<string>) {
    (scope.AgentScope? || scope.DeploymentScope?) && ref.Some?
  }

  function Share(rows: seq<UsageRow>, scope: Scope, ref: Option<string>): string -> real {
    (k: string) =>
      if Narrowed(scope, ref) && k != ref.value then 0.0
      else Round6(SumBy((r: UsageRow) => r.cost, Filter((r: UsageRow) => CountedBy(scope)(r) == k, rows)))
  }

  /** The selected agents' or deployments' costs, each rounded, added up. */
  function BudgetSum(rows: seq<UsageRow>, scope: Scope, ref: Option<string>): real {
    SumBy(Share(rows, scope, ref), Keys(CountedBy(scope), rows))
  }

  lemma {:induction false} KeysCongruence(f: UsageRow -> string, g: UsageRow -> string, rows: seq<UsageRow>)
    requires forall r <- rows :: f(r) == g(r)
    ensures Keys(f, rows) == Keys(g, rows)
  {
    if rows != [] {
      KeysCongruence(f, g, rows[..|rows| - 1]);
    }
  }

  lemma CountedIsKey(scope: Scope, r: UsageRow)
    ensures CountedBy(scope)(r) == KeyFn(GroupByForScope(scope))(r)
  {
    assert KeyFn(GroupByForScope(scope))(r) == KeyOf(GroupByForScope(scope), r);
  }

  lemma ShareIsTerm(rows: seq<UsageRow>, scope: Scope, ref: Option<string>, k: string)
    ensures Share(rows, scope, ref)(k) == SpendTerm(rows, scope, ref)(k)
  {
    var p := (r: UsageRow) => CountedBy(scope)(r) == k;
    forall r | r in rows ensures p(r) <==> KeyFn(GroupByForScope(scope))(r) == k {
      CountedIsKey(scope, r);
    }
    GroupIs(KeyFn(GroupByForScope(scope)), rows, k, p);
    SumCongruence((r: UsageRow) => r.cost, Cost, Filter(p, rows));
  }

  /** A budget's spend is that sum, and the budget triggers exactly when the sum reaches its threshold. */
  lemma TriggersExactly(rows: seq<UsageRow>, threshold: real, scope: Scope, ref: Option<string>, window: ResetWindow)
    ensures BuildPreview(rows, threshold, scope, ref, window).currentSpend == BudgetSum(rows, scope, ref)
    ensures BuildPreview(rows, threshold, scope, ref, window).wouldTrigger <==> BudgetSum(rows, scope, ref) >= threshold
  {
    SpendIsSum(rows, threshold, scope, ref, window);
    forall r | r in rows ensures CountedBy(scope)(r) == KeyFn(GroupByForScope(scope))(r) {
      CountedIsKey(scope, r);
    }
    KeysCongruence(CountedBy(scope), KeyFn(GroupByForScope(scope)), rows);
    forall k ensures Share(rows, scope, ref)(k) == SpendTerm(rows, scope, ref)(k) {
      ShareIsTerm(rows, scope, ref, k);
    }
    SumCongruence(Share(rows, scope, ref), SpendTerm(rows, scope, ref), ScopedKeys(rows, scope));
  }

  lemma WholeTimes(a: real, m: int)
    requires a == m as real
    ensures (a * 30.0).Floor as real == a * 30.0
  {
    assert a * 30.0 == (30 * m) as real;
  }

  lemma GridTimes(x: real)
    requires OnGrid(x)
    ensures OnGrid(x * 30.0)
  {
    WholeTimes(x * SCALE, (x * SCALE).Floor);
    assert x * 30.0 * SCALE == x * SCALE * 30.0;
  }

  /** Thirty days at the window's rate, exact for daily and monthly budgets and to half a step for weekly ones. */
  predicate Projects(projected: real, spend: real, window: ResetWindow) {
    match window
    case Daily => projected == spend * 30.0
    case Weekly => spend * 30.0 / 7.0 - HALF_STEP <= projected <= spend * 30.0 / 7.0 + HALF_STEP
    case Monthly => projected == spend
  }

  lemma Projection(spend: real, window: ResetWindow)
    requires OnGrid(spend)
    ensures Projects(Projected(spend, window), spend, window)
  {
    var x := spend * (30.0 / WindowDays(window) as real);
    Round6Laws(x, x);
    if window.Daily? {
      GridTimes(spend);
      assert x == spend * 30.0;
    } else if window.Monthly? {
      assert x == spend;
    } else {
      assert x == spend * 30.0 / 7.0;
    }
  }

  /** Spend over threshold, for a positive threshold. */
  predicate Utilizes(ratio: real, spend: real, threshold: real) {
    if threshold > 0.0 then ratio * threshold == spend else ratio == 0.0
  }

  lemma Utilization(spend: real, threshold: real)
    ensures Utilizes(Ratio(spend, threshold), spend, threshold)
  {
  }

  lemma SpendOnGrid(rows: seq<UsageRow>, threshold: real, scope: Scope, ref: Option<string>, window: ResetWindow)
    ensures OnGrid(BuildPreview(rows, threshold, scope, ref, window).currentSpend)
  {
    var summary := Summarize(rows, WindowDays(window), GroupByForScope(scope));
    var raw := SumBy(TotalCost, FilterBreakdown(summary.breakdown, scope, ref));
    Round6Laws(raw, raw);
  }

  /** The other figures of a preview. */
  lemma PreviewExact(rows: seq<UsageRow>, threshold: real, scope: Scope, ref: Option<string>, window: ResetWindow)
    ensures var v := BuildPreview(rows, threshold, scope, ref, window);
      && Projects(v.projectedSpend, BudgetSum(rows, scope, ref), window)
      && Utilizes(v.utilization, BudgetSum(rows, scope, ref), threshold)
  {
    var spend := BudgetSum(rows, scope, ref);
    TriggersExactly(rows, threshold, scope, ref, window);
    SpendOnGrid(rows, threshold, scope, ref, window);
    Projection(spend, window);
    Utilization(spend, threshold);
  }

  predicate Chosen(b: Breakdown, scope: Scope, ref: Option<string>) {
    Narrowed(scope, ref) ==> b.key == ref.value
  }

  lemma {:induction false} FilterKeepsOrder(p: Breakdown -> bool, s: seq<Breakdown>)
    requires Descending(TotalCost, s)
    ensures Descending(TotalCost, Filter(p, s))
  {
    if s != [] {
      var init, last := s[..|s| - 1], s[|s| - 1];
      FilterKeepsOrder(p, init);
      FilterMembers(p, init);
      var r := Filter(p, init);
      forall i | 0 <= i < |r| ensures TotalCost(r[i]) >= TotalCost(last) {
        assert r[i] in init;
        var j :| 0 <= j < |init| && init[j] == r[i];
        assert s[j] == r[i];
      }
    }
  }

  lemma ChosenOnes(items: seq<Breakdown>, scope: Scope, ref: Option<string>)
    requires Descending(TotalCost, items)
    ensures Descending(TotalCost, FilterBreakdown(items, scope, ref))
    ensures forall b :: b in FilterBreakdown(items, scope, ref) <==> b in items && Chosen(b, scope, ref)
  {
    FilterMembers(InScope(scope, ref), items);
    FilterKeepsOrder(InScope(scope, ref), items);
  }

  /** The contributors are the five dearest selected entries, dearest first, or all if there are fewer. */
  lemma ContributorsExact(rows: seq<UsageRow>, threshold: real, scope: Scope, ref: Option<string>, window: ResetWindow)
    ensures var top := BuildPreview(rows, threshold, scope, ref, window).topContributors;
      var all := Summarize(rows, WindowDays(window), GroupByForScope(scope)).breakdown;
      && |top| <= 5 && Descending(TotalCost, top)
      && (forall b <- top :: b in all && Chosen(b, scope, ref))
      && (forall b <- all :: Chosen(b, scope, ref) && b !in top ==>
            |top| == 5 && forall c <- top :: c.totalCost >= b.totalCost)
  {
    var all := Summarize(rows, WindowDays(window), GroupByForScope(scope)).breakdown;
    var chosen := FilterBreakdown(all, scope, ref);
    BreakdownExact(rows, WindowDays(window), GroupByForScope(scope));
    ChosenOnes(all, scope, ref);
    FirstFive(chosen);
  }

  lemma FirstFive(s: seq<Breakdown>)
    requires Descending(TotalCost, s)
    ensures var top := if |s| <= 5 then s else s[..5];
      && Descending(TotalCost, top) && (forall b <- top :: b in s)
      && (forall b <- s :: b !in top ==> |top| == 5 && forall c <- top :: c.totalCost >= b.totalCost)
  {
    if |s| > 5 {
      forall b, c | b in s && b !in s[..5] && c in s[..5] ensures c.totalCost >= b.totalCost {
        var j :| 0 <= j < |s| && s[j] == b;
        var i :| 0 <= i < 5 && s[i] == c;
        assert TotalCost(s[i]) >= TotalCost(s[j]);
      }
    }
  }

  /** A tenant, project or environment budget (or one without a reference) sees the summary total,
      within (k + 1) half steps for k groups. */
  lemma WholeScopeSpend(rows: seq<UsageRow>, threshold: real, scope: Scope, ref: Option<string>, window: ResetWindow)
    requires WholeScope(scope, ref)
    ensures var s := Summarize(rows, WindowDays(window), GroupByForScope(scope));
      var slack := (|s.breakdown| + 1) as real * HALF_STEP;
      s.totalCost - slack <= BuildPreview(rows, threshold, scope, ref, window).currentSpend <= s.totalCost + slack
  {
    var s := Summarize(rows, WindowDays(window), GroupByForScope(scope));
    CostsConserved(rows, WindowDays(window), GroupByForScope(scope));
    Round6Laws(SumBy(TotalCost, s.breakdown), 0.0);
  }

  /** A group's contribution only grows with its rows, and a group that appears adds nothing negative. */
  lemma SpendTermGrows(rows: seq<UsageRow>, more: seq<UsageRow>, scope: Scope, ref: Option<string>, k: string)
    requires Grows(Cost, rows, more)
    ensures SpendTerm(rows, scope, ref)(k) <= SpendTerm(more, scope, ref)(k)
    ensures k !in ScopedKeys(rows, scope) ==> SpendTerm(more, scope, ref)(k) >= 0.0
  {
    var g := GroupByForScope(scope);
    GroupGrows(Cost, KeyFn(g), rows, more, k);
    Round6Laws(SumBy(Cost, RowsOf(g, rows, k)), SumBy(Cost, RowsOf(g, more, k)));
    if k !in ScopedKeys(rows, scope) {
      GroupAbsent(KeyFn(g), rows, k);
      Round6Laws(SumBy(Cost, RowsOf(g, more, k)), 0.0);
    }
  }

  lemma ScopedKeysGrow(rows: seq<UsageRow>, more: seq<UsageRow>, scope: Scope)
    requires Grows(Cost, rows, more)
    ensures multiset(ScopedKeys(rows, scope)) <= multiset(ScopedKeys(more, scope))
    ensures forall k :: k in multiset(ScopedKeys(more, scope)) - multiset(ScopedKeys(rows, scope)) ==>
      k !in ScopedKeys(rows, scope)
  {
    var key, ks, ks' := KeyFn(GroupByForScope(scope)), ScopedKeys(rows, scope), ScopedKeys(more, scope);
    KeysMembers(key, rows);
    KeysMembers(key, more);
    forall k | k in ks ensures k in ks' {
      var r :| r in rows && key(r) == k;
      assert r in multiset(rows);
      assert r in more;
    }
    DistinctContained(ks, ks');
    DistinctOnce(ks');
  }

  /** More usage never lowers any budget's spend. */
  lemma SpendMonotone(rows: seq<UsageRow>, more: seq<UsageRow>, threshold: real, scope: Scope, ref: Option<string>,
                      window: ResetWindow)
    requires Grows(Cost, rows, more)
    ensures BuildPreview(rows, threshold, scope, ref, window).currentSpend
         <= BuildPreview(more, threshold, scope, ref, window).currentSpend
  {
    SpendIsSum(rows, threshold, scope, ref, window);
    SpendIsSum(more, threshold, scope, ref, window);
    ScopedKeysGrow(rows, more, scope);
    forall k
      ensures SpendTerm(rows, scope, ref)(k) <= SpendTerm(more, scope, ref)(k)
      ensures k !in ScopedKeys(rows, scope) ==> SpendTerm(more, scope, ref)(k) >= 0.0
    {
      SpendTermGrows(rows, more, scope, ref, k);
    }
    SumContained(SpendTerm(rows, scope, ref), SpendTerm(more, scope, ref), ScopedKeys(rows, scope),
                 ScopedKeys(more, scope));
  }
}
