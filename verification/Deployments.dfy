/** deployments/instances.py and deployments/status.py: agent instances, their cache keys and what their states
    add up to. */
module Instances {
  import opened Common
  import opened DecimalText
  import opened ColonText
  import opened Sums
  import opened Partition

  datatype InstanceStatus = Loading | Ready | Busy | Idle | DrainingInstance | Evicted | FailedInstance

  datatype Instance = Instance(
    id: int, tenantId: int, projectId: int, deploymentId: int, agentId: int, versionId: int, workerId: string,
    profile: Option<string>, cacheKey: string, status: InstanceStatus, loadedAt: Option<int>, lastUsedAt: Option<int>,
    heartbeatAt: Option<int>, runningRuns: int, error: Option<string>, evictReason: Option<string>)

  /** None, empty and "default" name the same execution profile. */
  function ProfileName(profile: Option<string>): string {
    if profile.None? || profile.value == "" then "default" else profile.value
  }

  function CacheKey(deploymentId: int, versionId: int, profile: Option<string>): string {
    IntText(deploymentId) + ":" + (IntText(versionId) + ":" + ProfileName(profile))
  }

  predicate IsDefault(profile: Option<string>) {
    profile.None? || profile.value == "" || profile.value == "default"
  }

  predicate SameProfile(p: Option<string>, q: Option<string>) {
    p == q || (IsDefault(p) && IsDefault(q))
  }

  /** Cache keys are equal exactly when deployment, version and profile are, whatever colons a profile holds; no
      profile, an empty one and "default" are the same. */
  lemma CacheKeyInjective(d: int, v: int, p: Option<string>, d': int, v': int, p': Option<string>)
    ensures CacheKey(d, v, p) == CacheKey(d', v', p') <==> d == d' && v == v' && SameProfile(p, p')
  {
    assert SameProfile(p, p') <==> ProfileName(p) == ProfileName(p');
    if CacheKey(d, v, p) == CacheKey(d', v', p') {
      var tail, tail' := IntText(v) + ":" + ProfileName(p), IntText(v') + ":" + ProfileName(p');
      KeyHead(d, tail, d', tail');
      KeyHead(v, ProfileName(p), v', ProfileName(p'));
    }
  }

  lemma KeyHead(m: int, x: string, n: int, y: string)
    requires IntText(m) + ":" + x == IntText(n) + ":" + y
    ensures m == n && x == y
  {
    IntTextNoColon(m);
    IntTextNoColon(n);
    ColonSplit(IntText(m), x, IntText(n), y);
    IntTextInjective(m, n);
  }

  predicate Available(i: Instance) { i.status.Ready? || i.status.Idle? || i.status.Busy? }
  predicate Live(i: Instance) { !i.status.Evicted? }
  predicate IsLoading(i: Instance) { i.status.Loading? }
  predicate IsFailed(i: Instance) { i.status.FailedInstance? }
  predicate IsDraining(i: Instance) { i.status.DrainingInstance? }

  // ---- aggregate_runtime_status ----

  datatype Desired = Draft | Active | Paused | Draining | Stopped | Archived
  datatype Runtime = NotLoaded | WarmingUp | RuntimeReady | Degraded | RuntimeFailed | RuntimeDraining | RuntimeStopped

  datatype Summary = Summary(
    runtime: Runtime, runningRuns: int, queueBacklog: int, workers: map<string, int>,
    lastError: Option<string>, lastHeartbeat: Option<int>, loadedAt: Option<int>)

  predicate Any(p: Instance -> bool, s: seq<Instance>) {
    Filter(p, s) != []
  }

  /** The status choice, over the instances that are not evicted. */
  function StatusOf(desired: Desired, live: seq<Instance>): Runtime {
    if desired.Stopped? && live == [] then RuntimeStopped
    else if desired.Draining? || (live != [] && |Filter(IsDraining, live)| == |live|) then RuntimeDraining
    else if live == [] then NotLoaded
    else if Any(Available, live) && Any(IsFailed, live) then Degraded
    else if Any(Available, live) then RuntimeReady
    else if Any(IsLoading, live) then WarmingUp
    else if Any(IsFailed, live) then RuntimeFailed
    else NotLoaded
  }

  function WorkerOf(i: Instance): string { i.workerId }

  function Workers(live: seq<Instance>): map<string, int> {
    map w | w in Keys(WorkerOf, live) :: |Group(WorkerOf, live, w)|
  }

  /** The latest of the times that are set. */
  function Latest(at: Instance -> Option<int>, s: seq<Instance>): (t: Option<int>)
    ensures t.Some? ==> exists i <- s :: at(i) == t
    ensures forall i <- s :: at(i).Some? ==> t.Some? && at(i).value <= t.value
  {
    if s == [] then None
    else
      var init, last := s[..|s| - 1], s[|s| - 1];
      assert s == init + [last];
      var t := Latest(at, init);
      if at(last).Some? && (t.None? || t.value < at(last).value) then at(last) else t
  }

  function Heartbeat(i: Instance): Option<int> { i.heartbeatAt }
  function LoadedAt(i: Instance): Option<int> { i.loadedAt }

  function LastError(live: seq<Instance>): Option<string> {
    if live == [] then None
    else
      var last := live[|live| - 1];
      if last.error.Some? && last.error.value != "" then last.error else LastError(live[..|live| - 1])
  }

  function Aggregate(desired: Desired, instances: seq<Instance>, runningRuns: int, queueBacklog: int): Summary {
    var live := Filter(Live, instances);
    Summary(StatusOf(desired, live), runningRuns, queueBacklog, Workers(live), LastError(live),
            Latest(Heartbeat, live), Latest(LoadedAt, live))
  }

  function StatusBy(desired: Desired, live: bool, available: bool, failed: bool, loading: bool): Runtime {
    if desired.Stopped? && !live then RuntimeStopped
    else if desired.Draining? then RuntimeDraining
    else if !live then NotLoaded
    else if available then if failed then Degraded else RuntimeReady
    else if loading then WarmingUp
    else if failed then RuntimeFailed
    else RuntimeDraining
  }

  lemma {:induction false} FilterOfAll(p: Instance -> bool, s: seq<Instance>)
    ensures |Filter(p, s)| <= |s| && (|Filter(p, s)| == |s| <==> forall x <- s :: p(x))
  {
    if s != [] {
      FilterOfAll(p, s[..|s| - 1]);
      assert s == s[..|s| - 1] + [s[|s| - 1]];
    }
  }

  /** Whatever is live is available, failed, loading or draining. */
  lemma AllDraining(live: seq<Instance>)
    requires forall i <- live :: Live(i)
    ensures |Filter(IsDraining, live)| == |live|
       <==> !Any(Available, live) && !Any(IsFailed, live) && !Any(IsLoading, live)
  {
    FilterOfAll(IsDraining, live);
    FilterMembers(Available, live);
    FilterMembers(IsFailed, live);
    FilterMembers(IsLoading, live);
    forall i | i in live
      ensures IsDraining(i) <==>
        i !in Filter(Available, live) && i !in Filter(IsFailed, live) && i !in Filter(IsLoading, live)
    {
    }
    if Any(Available, live) {
      assert Filter(Available, live)[0] in live;
    }
    if Any(IsFailed, live) {
      assert Filter(IsFailed, live)[0] in live;
    }
    if Any(IsLoading, live) {
      assert Filter(IsLoading, live)[0] in live;
    }
  }

  lemma StatusOfLive(desired: Desired, live: seq<Instance>)
    requires forall i <- live :: Live(i)
    ensures StatusOf(desired, live)
         == StatusBy(desired, live != [], Any(Available, live), Any(IsFailed, live), Any(IsLoading, live))
  {
    AllDraining(live);
  }

  // ---- What a summary says, without the aggregation ----

  ghost predicate AnyIn(s: seq<Instance>, statuses: set<InstanceStatus>) {
    exists i <- s :: i.status in statuses
  }

  /** Each runtime status, and exactly when it is reported. */
  ghost predicate StatusFits(r: Runtime, desired: Desired, s: seq<Instance>) {
    var live := AnyIn(s, {Loading, Ready, Busy, Idle, DrainingInstance, FailedInstance});
    var available, failed, loading := AnyIn(s, {Ready, Idle, Busy}), AnyIn(s, {FailedInstance}), AnyIn(s, {Loading});
    && (r.RuntimeStopped? <==> desired.Stopped? && !live)
    && (r.RuntimeDraining? <==> desired.Draining? || (live && !available && !failed && !loading))
    && (r.NotLoaded? <==> !desired.Stopped? && !desired.Draining? && !live)
    && (r.Degraded? <==> !desired.Draining? && available && failed)
    && (r.RuntimeReady? <==> !desired.Draining? && available && !failed)
    && (r.WarmingUp? <==> !desired.Draining? && !available && loading)
    && (r.RuntimeFailed? <==> !desired.Draining? && !available && !loading && failed)
  }

  lemma AnyMeans(p: Instance -> bool, s: seq<Instance>, statuses: set<InstanceStatus>)
    requires Evicted !in statuses && forall i <- s :: p(i) <==> i.status in statuses
    ensures Any(p, Filter(Live, s)) <==> AnyIn(s, statuses)
  {
    var live := Filter(Live, s);
    FilterMembers(Live, s);
    FilterMembers(p, live);
    if Any(p, live) {
      assert Filter(p, live)[0] in Filter(p, live);
    }
  }

  lemma StatusByMeans(desired: Desired, s: seq<Instance>, live: bool, available: bool, failed: bool, loading: bool)
    requires live == AnyIn(s, {Loading, Ready, Busy, Idle, DrainingInstance, FailedInstance})
    requires available == AnyIn(s, {Ready, Idle, Busy}) && failed == AnyIn(s, {FailedInstance})
    requires loading == AnyIn(s, {Loading})
    ensures StatusFits(StatusBy(desired, live, available, failed, loading), desired, s)
  {
    assert available || failed || loading ==> live;
  }

  lemma StatusMeans(desired: Desired, s: seq<Instance>)
    ensures StatusFits(StatusOf(desired, Filter(Live, s)), desired, s)
  {
    var live := Filter(Live, s);
    FilterMembers(Live, s);
    StatusOfLive(desired, live);
    AnyMeans(Available, s, {Ready, Idle, Busy});
    AnyMeans(IsFailed, s, {FailedInstance});
    AnyMeans(IsLoading, s, {Loading});
    AnyMeans(Live, s, {Loading, Ready, Busy, Idle, DrainingInstance, FailedInstance});
    FilterOfAll(Live, live);
    StatusByMeans(desired, s, live != [], Any(Available, live), Any(IsFailed, live), Any(IsLoading, live));
  }

  /** The latest of these times among the instances that are not evicted. */
  ghost predicate IsLatest(t: Option<int>, at: Instance -> Option<int>, s: seq<Instance>) {
    && (t.Some? ==> exists i <- s :: !i.status.Evicted? && at(i) == t)
    && (forall i <- s :: !i.status.Evicted? && at(i).Some? ==> t.Some? && at(i).value <= t.value)
  }

  lemma LatestMeans(at: Instance -> Option<int>, time: Instance -> Option<int>, s: seq<Instance>)
    requires forall i <- s :: at(i) == time(i)
    ensures IsLatest(Latest(at, Filter(Live, s)), time, s)
  {
    FilterMembers(Live, s);
  }

  predicate HasError(i: Instance) {
    !i.status.Evicted? && i.error.Some? && i.error.value != ""
  }

  /** The error of the last instance that is not evicted and has one. */
  ghost predicate IsLastError(e: Option<string>, s: seq<Instance>) {
    if e.None? then forall i <- s :: !HasError(i)
    else exists k ::
      && 0 <= k < |s| && HasError(s[k]) && s[k].error == e
      && forall j :: k < j < |s| ==> !HasError(s[j])
  }

  lemma LiveNext(s: seq<Instance>)
    requires s != []
    ensures var init, last := Filter(Live, s[..|s| - 1]), s[|s| - 1];
      && Filter(Live, s) == (if last.status.Evicted? then init else init + [last])
      && LastError(Filter(Live, s)) == if HasError(last) then last.error else LastError(init)
  {
    var init, last := Filter(Live, s[..|s| - 1]), s[|s| - 1];
    assert (init + [last])[..|init|] == init;
  }

  lemma {:induction false} LastErrorMeans(s: seq<Instance>) returns (k: nat)
    ensures IsLastError(LastError(Filter(Live, s)), s)
    ensures LastError(Filter(Live, s)).None? ==> k == 0
    ensures LastError(Filter(Live, s)).Some? ==>
      && k < |s| && HasError(s[k]) && s[k].error == LastError(Filter(Live, s))
      && forall j :: k < j < |s| ==> !HasError(s[j])
  {
    k := 0;
    if s != [] {
      LiveNext(s);
      k := LastErrorMeans(s[..|s| - 1]);
      if HasError(s[|s| - 1]) {
        k := |s| - 1;
      } else {
        assert s == s[..|s| - 1] + [s[|s| - 1]];
      }
    }
  }

  function OnWorker(w: string): Instance -> bool {
    (i: Instance) => !i.status.Evicted? && i.workerId == w
  }

  /** Each worker with an instance that is not evicted, and how many it has. */
  ghost predicate AreWorkers(workers: map<string, int>, s: seq<Instance>) {
    && (forall w :: w in workers <==> exists i <- s :: !i.status.Evicted? && i.workerId == w)
    && (forall w :: w in workers ==> workers[w] == |Filter(OnWorker(w), s)|)
  }

  lemma {:induction false} WorkerGroup(s: seq<Instance>, w: string)
    ensures Group(WorkerOf, Filter(Live, s), w) == Filter(OnWorker(w), s)
  {
    if s != [] {
      var init, last := s[..|s| - 1], s[|s| - 1];
      WorkerGroup(init, w);
      GroupSnoc(WorkerOf, Filter(Live, init), last, w);
    }
  }

  lemma WorkersMean(s: seq<Instance>)
    ensures AreWorkers(Workers(Filter(Live, s)), s)
  {
    var live := Filter(Live, s);
    KeysMembers(WorkerOf, live);
    FilterMembers(Live, s);
    forall w ensures |Group(WorkerOf, live, w)| == |Filter(OnWorker(w), s)| {
      WorkerGroup(s, w);
    }
    forall w ensures w in Workers(live) <==> exists i <- s :: !i.status.Evicted? && i.workerId == w {
      if w in Workers(live) {
        var i :| i in live && WorkerOf(i) == w;
        assert i in s && !i.status.Evicted? && i.workerId == w;
      }
      if i :| i in s && !i.status.Evicted? && i.workerId == w {
        assert i in live && WorkerOf(i) == w;
      }
    }
  }

  ghost predicate Summarizes(r: Summary, desired: Desired, s: seq<Instance>, runningRuns: int, queueBacklog: int) {
    && StatusFits(r.runtime, desired, s) && r.runningRuns == runningRuns && r.queueBacklog == queueBacklog
    && AreWorkers(r.workers, s) && IsLastError(r.lastError, s)
    && IsLatest(r.lastHeartbeat, (i: Instance) => i.heartbeatAt, s)
    && IsLatest(r.loadedAt, (i: Instance) => i.loadedAt, s)
  }

  lemma AggregateMeans(desired: Desired, s: seq<Instance>, runningRuns: int, queueBacklog: int)
    ensures Summarizes(Aggregate(desired, s, runningRuns, queueBacklog), desired, s, runningRuns, queueBacklog)
  {
    StatusMeans(desired, s);
    WorkersMean(s);
    var _ := LastErrorMeans(s);
    LatestMeans(Heartbeat, (i: Instance) => i.heartbeatAt, s);
    LatestMeans(LoadedAt, (i: Instance) => i.loadedAt, s);
  }

  /** The counting loop over worker ids. */
  method CountWorkers(live: seq<Instance>) returns (workers: map<string, int>)
    ensures workers == Workers(live)
  {
    workers := map[];
    for i := 0 to |live|
      invariant workers == Workers(live[..i])
    {
      GroupLoopStep(WorkerOf, live, i);
      WorkersStep(live, i);
      var w := live[i].workerId;
      workers := workers[w := (if w in workers then workers[w] else 0) + 1];
    }
    assert live[..|live|] == live;
  }

  lemma WorkersStep(live: seq<Instance>, i: nat)
    requires i < |live|
    ensures var before, w := Workers(live[..i]), live[i].workerId;
      Workers(live[..i + 1]) == before[w := (if w in before then before[w] else 0) + 1]
  {
    GroupLoopStep(WorkerOf, live, i);
    var before, after, w := Workers(live[..i]), Workers(live[..i + 1]), live[i].workerId;
    assert after.Keys == before.Keys + {w};
  }

  method AggregateRuntimeStatus(desired: Desired, instances: seq<Instance>, runningRuns: int, queueBacklog: int)
    returns (s: Summary)
    ensures Summarizes(s, desired, instances, runningRuns, queueBacklog)
    ensures s == Aggregate(desired, instances, runningRuns, queueBacklog)
  {
    AggregateMeans(desired, instances, runningRuns, queueBacklog);
    var live := Filter(Live, instances);
    var workers := CountWorkers(live);
    s := Summary(StatusOf(desired, live), runningRuns, queueBacklog, workers, LastError(live),
                 Latest(Heartbeat, live), Latest(LoadedAt, live));
  }

  function WorkerCount(workers: map<string, int>): string -> int {
    w => if w in workers then workers[w] else 0
  }

  function One(i: Instance): int { 1 }

  lemma {:induction false} CountOnes(s: seq<Instance>)
    ensures CountBy(One, s) == |s|
  {
    if s != [] {
      CountOnes(s[..|s| - 1]);
    }
  }

  /** Every instance that is not evicted is counted for exactly one worker. */
  lemma WorkersAddUp(live: seq<Instance>)
    ensures CountBy(WorkerCount(Workers(live)), Keys(WorkerOf, live)) == |live|
  {
    PartitionCount(WorkerOf, One, live);
    CountOnes(live);
    forall w | w in Keys(WorkerOf, live) ensures WorkerCount(Workers(live))(w) == GroupCount(WorkerOf, One, live)(w) {
      CountOnes(Group(WorkerOf, live, w));
    }
    CountCongruence(WorkerCount(Workers(live)), GroupCount(WorkerOf, One, live), Keys(WorkerOf, live));
  }

  lemma FilterRearranged(p: Instance -> bool, s: seq<Instance>, t: seq<Instance>)
    requires multiset(s) == multiset(t)
    ensures multiset(Filter(p, s)) == multiset(Filter(p, t)) && |Filter(p, s)| == |Filter(p, t)|
  {
    forall x ensures multiset(Filter(p, s))[x] == multiset(Filter(p, t))[x] {
      FilterMultiset(p, s, x);
      FilterMultiset(p, t, x);
    }
    assert multiset(Filter(p, s)) == multiset(Filter(p, t));
    assert |multiset(Filter(p, s))| == |multiset(Filter(p, t))|;
  }

  lemma SameMembers(s: seq<Instance>, t: seq<Instance>, x: Instance)
    requires multiset(s) == multiset(t)
    ensures x in s <==> x in t
  {
    assert x in s <==> x in multiset(s);
    assert x in t <==> x in multiset(t);
  }

  lemma LatestGrows(at: Instance -> Option<int>, s: seq<Instance>, t: seq<Instance>)
    requires forall x <- s :: x in t
    ensures Latest(at, s).Some? ==> Latest(at, t).Some? && Latest(at, s).value <= Latest(at, t).value
  {
    if Latest(at, s).Some? {
      var i :| i in s && at(i) == Latest(at, s);
      assert i in t;
    }
  }

  lemma LatestRearranged(at: Instance -> Option<int>, s: seq<Instance>, t: seq<Instance>)
    requires multiset(s) == multiset(t)
    ensures Latest(at, s) == Latest(at, t)
  {
    forall x ensures x in s <==> x in t {
      SameMembers(s, t, x);
    }
    LatestGrows(at, s, t);
    LatestGrows(at, t, s);
  }

  lemma WorkersRearranged(s: seq<Instance>, t: seq<Instance>)
    requires multiset(s) == multiset(t)
    ensures Workers(s) == Workers(t)
  {
    KeysMembers(WorkerOf, s);
    KeysMembers(WorkerOf, t);
    forall x ensures x in s <==> x in t {
      SameMembers(s, t, x);
    }
    assert Workers(s).Keys == Workers(t).Keys;
    forall w ensures |Group(WorkerOf, s, w)| == |Group(WorkerOf, t, w)| {
      forall x ensures multiset(Group(WorkerOf, s, w))[x] == multiset(Group(WorkerOf, t, w))[x] {
        GroupMultiset(WorkerOf, s, w, x);
        GroupMultiset(WorkerOf, t, w, x);
      }
      assert multiset(Group(WorkerOf, s, w)) == multiset(Group(WorkerOf, t, w));
      assert |multiset(Group(WorkerOf, s, w))| == |multiset(Group(WorkerOf, t, w))|;
    }
  }

  lemma CountRearranged(p: Instance -> bool, s: seq<Instance>, t: seq<Instance>)
    requires multiset(s) == multiset(t)
    ensures |Filter(p, s)| == |Filter(p, t)| && |s| == |t|
  {
    FilterRearranged(p, s, t);
    assert |multiset(s)| == |multiset(t)|;
  }

  lemma StatusRearranged(desired: Desired, u: seq<Instance>, v: seq<Instance>)
    requires multiset(u) == multiset(v)
    ensures StatusOf(desired, u) == StatusOf(desired, v)
  {
    CountRearranged(IsDraining, u, v);
    CountRearranged(Available, u, v);
    CountRearranged(IsFailed, u, v);
    CountRearranged(IsLoading, u, v);
  }

  /** Status, worker distribution, heartbeat and load time depend only on which instances are not evicted: not
      on their order, and not on how many evicted ones are listed with them. */
  lemma AggregateRearranged(desired: Desired, s: seq<Instance>, t: seq<Instance>, runningRuns: int, queueBacklog: int)
    requires multiset(Filter(Live, s)) == multiset(Filter(Live, t))
    ensures
      var a := Aggregate(desired, s, runningRuns, queueBacklog);
      var b := Aggregate(desired, t, runningRuns, queueBacklog);
      a.(lastError := None) == b.(lastError := None)
  {
    var u, v := Filter(Live, s), Filter(Live, t);
    StatusRearranged(desired, u, v);
    WorkersRearranged(u, v);
    LatestRearranged(Heartbeat, u, v);
    LatestRearranged(LoadedAt, u, v);
  }
}

/** deployments/service.py: control operations on deployments, with their instances and audit log. */
module DeploymentControl {
  import opened Common
  import opened Sums
  import opened Partition
  import opened Instances

  datatype Action = Activate | Pause | Resume | Drain | Stop | Restart

  datatype Deployment = Deployment(
    id: int, tenantId: int, projectId: int, agentId: int, versionId: int, environment: string,
    desired: Desired, runtime: Runtime, replicas: int, lastError: Option<string>)

  datatype Verdict = Allowed | Denied(reason: string)

  datatype AuditEntry = AuditEntry(
    action: Action, deploymentId: int, actor: Option<string>, tenantId: int, projectId: int,
    requestId: Option<string>, verdict: Verdict)

  datatype Error = DeploymentNotFound | PolicyDenied(reason: string) | NotAccepting | BindingMismatch

  datatype PolicyDecision = PolicyDecision(allowed: bool, reason: Option<string>)

  type Policy = (Option<string>, Action, Deployment) -> PolicyDecision

  datatype Call = Call(
    action: Action, deploymentId: int, actor: Option<string>, tenantId: Option<int>, projectId: Option<int>,
    requestId: Option<string>)

  datatype Control = Control(deployments: map<int, Deployment>, instances: seq<Instance>, audit: seq<AuditEntry>)

  function DesiredBy(action: Action): Desired {
    match action
    case Activate => Active
    case Pause => Paused
    case Resume => Active
    case Drain => Draining
    case Stop => Stopped
    case Restart => Active
  }

  function DeploymentOf(i: Instance): int { i.deploymentId }

  function InstancesOf(instances: seq<Instance>, d: int): seq<Instance> {
    Group(DeploymentOf, instances, d)
  }

  predicate InScope(d: Deployment, tenantId: Option<int>, projectId: Option<int>) {
    (tenantId.None? || d.tenantId == tenantId.value) && (projectId.None? || d.projectId == projectId.value)
  }

  /** The binding check comes before the policy; both refuse with a reason. */
  function VerdictOn(policy: Policy, d: Deployment, call: Call): Verdict {
    if !InScope(d, call.tenantId, call.projectId) then Denied("deployment_scope_mismatch")
    else
      var decision := policy(call.actor, call.action, d);
      if decision.allowed then Allowed
      else
        Denied(if decision.reason.None? || decision.reason.value == "" then "policy_denied" else decision.reason.value)
  }

  /** x or fallback, for an optional id: 0 is falsy. */
  function OrId(x: Option<int>, fallback: int): int {
    if x.Some? && x.value != 0 then x.value else fallback
  }

  function AuditOf(d: Deployment, call: Call, verdict: Verdict): AuditEntry {
    AuditEntry(call.action, d.id, call.actor, OrId(call.tenantId, d.tenantId), OrId(call.projectId, d.projectId),
               call.requestId, verdict)
  }

  function OnDeployment(d: int, change: Instance -> Instance): Instance -> Instance {
    (i: Instance) => if i.deploymentId == d then change(i) else i
  }

  function MarkedEvicted(i: Instance, reason: string): Instance {
    i.(status := Evicted, runningRuns := 0, evictReason := Some(reason))
  }

  function EvictedFor(reason: string): Instance -> Instance {
    (i: Instance) => MarkedEvicted(i, reason)
  }

  function DrainedInstance(i: Instance): Instance {
    if i.status.Evicted? then i else i.(status := DrainingInstance)
  }

  /** What the operation does to the deployment's instances after the control step. */
  function InstancesAfter(instances: seq<Instance>, d: int, action: Action): seq<Instance> {
    match action
    case Drain => MapSeq(OnDeployment(d, DrainedInstance), instances)
    case Stop => MapSeq(OnDeployment(d, EvictedFor("stop")), instances)
    case Restart => MapSeq(OnDeployment(d, EvictedFor("restart")), instances)
    case _ => instances
  }

  /** The control step's own status update: set outright for stop and drain, aggregated otherwise. */
  function Steered(d: Deployment, id: int, action: Action, instances: seq<Instance>): Deployment {
    var desired := DesiredBy(action);
    d.(desired := desired,
       runtime := if desired.Stopped? then RuntimeStopped
                  else if desired.Draining? then RuntimeDraining
                  else Aggregate(desired, InstancesOf(instances, id), 0, 0).runtime)
  }

  function Summarized(d: Deployment, id: int, instances: seq<Instance>, runningRuns: int,
                      queueBacklog: int): Deployment {
    var s := Aggregate(d.desired, InstancesOf(instances, id), runningRuns, queueBacklog);
    d.(runtime := s.runtime, lastError := s.lastError)
  }

  /** A restart ends with a summary over the evicted instances. */
  function ControlledDeployment(d: Deployment, id: int, action: Action, instances: seq<Instance>): Deployment {
    var steered := Steered(d, id, action, instances);
    if action.Restart? then Summarized(steered, id, InstancesAfter(instances, id, action), 0, 0) else steered
  }

  datatype Outcome = Outcome(state: Control, reply: Result<Deployment, Error>)

  function Controlled(s: Control, policy: Policy, call: Call): Outcome {
    if call.deploymentId !in s.deployments then Outcome(s, Err(DeploymentNotFound))
    else
      var d := s.deployments[call.deploymentId];
      var verdict := VerdictOn(policy, d, call);
      var audit := s.audit + [AuditOf(d, call, verdict)];
      match verdict
      case Denied(reason) => Outcome(s.(audit := audit), Err(PolicyDenied(reason)))
      case Allowed =>
        var d' := ControlledDeployment(d, call.deploymentId, call.action, s.instances);
        Outcome(Control(s.deployments[d.id := d'], InstancesAfter(s.instances, call.deploymentId, call.action), audit),
                Ok(d'))
  }

  // ---- What a control call does, field by field ----

  /** Activate, resume and restart ask for an active deployment; the others for what they are named after. */
  predicate DesiredFits(action: Action, desired: Desired) {
    && (desired.Active? <==> action.Activate? || action.Resume? || action.Restart?)
    && (desired.Paused? <==> action.Pause?) && (desired.Draining? <==> action.Drain?)
    && (desired.Stopped? <==> action.Stop?)
  }

  /** A drain marks what is not evicted, a stop or restart evicts; other deployments' instances stay. */
  predicate InstanceFits(action: Action, d: int, before: Instance, after: Instance) {
    if before.deploymentId == d && (action.Stop? || action.Restart?) then
      after == before.(status := Evicted, runningRuns := 0,
                       evictReason := Some(if action.Stop? then "stop" else "restart"))
    else if before.deploymentId == d && action.Drain? && !before.status.Evicted? then
      after == before.(status := DrainingInstance)
    else
      after == before
  }

  /** The entry names the call's own tenant and project unless they are missing or zero. */
  predicate EntryFits(e: AuditEntry, call: Call, d: Deployment) {
    && e.action == call.action && e.deploymentId == call.deploymentId && e.actor == call.actor
    && e.requestId == call.requestId
    && e.tenantId == (if call.tenantId in {None, Some(0)} then d.tenantId else call.tenantId.value)
    && e.projectId == (if call.projectId in {None, Some(0)} then d.projectId else call.projectId.value)
  }

  /** The verdict on a call: refused for naming a foreign tenant or project, refused by the policy, or allowed. */
  predicate VerdictFits(v: Verdict, policy: Policy, d: Deployment, call: Call) {
    var foreign :=
      || (call.tenantId.Some? && call.tenantId.value != d.tenantId)
      || (call.projectId.Some? && call.projectId.value != d.projectId);
    var decision := policy(call.actor, call.action, d);
    && (v.Allowed? <==> !foreign && decision.allowed)
    && (foreign ==> v == Denied("deployment_scope_mismatch"))
    && (!foreign && !decision.allowed ==>
          v == Denied(if decision.reason.Some? && decision.reason.value != "" then decision.reason.value
                      else "policy_denied"))
  }

  /** Everything a control call does: on an unknown deployment nothing; otherwise one audit entry, and beyond that
      nothing if it is refused, and the new statuses and instances if it is allowed. */
  ghost predicate Obeys(s: Control, policy: Policy, call: Call, s': Control, reply: Result<Deployment, Error>) {
    if call.deploymentId !in s.deployments then s' == s && reply == Err(DeploymentNotFound)
    else
      var d := s.deployments[call.deploymentId];
      && |s'.audit| == |s.audit| + 1 && s.audit <= s'.audit
      && var e := s'.audit[|s.audit|];
      && EntryFits(e, call, d) && VerdictFits(e.verdict, policy, d, call)
      && if e.verdict.Denied? then
           && s'.deployments == s.deployments && s'.instances == s.instances
           && reply == Err(PolicyDenied(e.verdict.reason))
         else
           && reply.Ok? && s'.deployments == s.deployments[call.deploymentId := reply.value]
           && reply.value == d.(desired := reply.value.desired, runtime := reply.value.runtime,
                                lastError := if call.action.Restart? then None else d.lastError)
           && DesiredFits(call.action, reply.value.desired)
           && StatusFits(reply.value.runtime, reply.value.desired, InstancesOf(s'.instances, call.deploymentId))
           && |s'.instances| == |s.instances|
           && forall k :: 0 <= k < |s.instances| ==>
                InstanceFits(call.action, call.deploymentId, s.instances[k], s'.instances[k])
  }

  lemma InstancesFit(instances: seq<Instance>, d: int, action: Action, k: nat)
    requires k < |instances|
    ensures |InstancesAfter(instances, d, action)| == |instances|
    ensures InstanceFits(action, d, instances[k], InstancesAfter(instances, d, action)[k])
  {
    match action
    case Drain => assert InstancesAfter(instances, d, action)[k] == OnDeployment(d, DrainedInstance)(instances[k]);
    case Stop => assert InstancesAfter(instances, d, action)[k] == OnDeployment(d, EvictedFor("stop"))(instances[k]);
    case Restart =>
      assert InstancesAfter(instances, d, action)[k] == OnDeployment(d, EvictedFor("restart"))(instances[k]);
    case _ =>
  }

  lemma ControlFits(s: Control, policy: Policy, call: Call)
    requires Keyed(s) && Controlled(s, policy, call).reply.Ok?
    ensures var o, d := Controlled(s, policy, call), call.deploymentId;
      var x := o.reply.value;
      && o.state.deployments == s.deployments[d := x]
      && x == s.deployments[d].(desired := x.desired, runtime := x.runtime,
                                lastError := if call.action.Restart? then None else s.deployments[d].lastError)
      && DesiredFits(call.action, x.desired)
      && x.runtime == Aggregate(x.desired, InstancesOf(o.state.instances, d), 0, 0).runtime
  {
    ControlLeavesFresh(s, policy, call);
    if call.action.Restart? {
      EvictionLeavesNone(s.instances, call.deploymentId, "restart");
    }
  }

  lemma ControlExact(s: Control, policy: Policy, call: Call, o: Outcome)
    requires Keyed(s) && o == Controlled(s, policy, call)
    ensures Obeys(s, policy, call, o.state, o.reply)
  {
    if o.reply.Ok? {
      ControlFits(s, policy, call);
      AggregateMeans(o.reply.value.desired, InstancesOf(o.state.instances, call.deploymentId), 0, 0);
      assert |o.state.instances| == |s.instances| by {
        if s.instances != [] {
          InstancesFit(s.instances, call.deploymentId, call.action, 0);
        }
      }
      forall k | 0 <= k < |s.instances|
        ensures InstanceFits(call.action, call.deploymentId, s.instances[k], o.state.instances[k])
      {
        InstancesFit(s.instances, call.deploymentId, call.action, k);
      }
    }
  }

  /** Deployments are stored under their own id. */
  ghost predicate Keyed(s: Control) {
    forall d :: d in s.deployments ==> s.deployments[d].id == d
  }

  // ---- Instances of one deployment, instances of the others ----

  lemma {:induction false} MappedGroups(s: seq<Instance>, d: int, change: Instance -> Instance, other: int)
    requires forall i :: change(i).deploymentId == i.deploymentId
    ensures InstancesOf(MapSeq(OnDeployment(d, change), s), other)
         == if other == d then MapSeq(change, InstancesOf(s, d)) else InstancesOf(s, other)
  {
    if s != [] {
      var init, last := s[..|s| - 1], s[|s| - 1];
      var f := OnDeployment(d, change);
      assert s == init + [last];
      assert MapSeq(f, s) == MapSeq(f, init) + [f(last)];
      MappedGroups(init, d, change, other);
      GroupSnoc(DeploymentOf, init, last, other);
      GroupSnoc(DeploymentOf, MapSeq(f, init), f(last), other);
    }
  }

  lemma {:induction false} NoneLive(s: seq<Instance>)
    requires forall i :: 0 <= i < |s| ==> s[i].status.Evicted?
    ensures Filter(Live, s) == []
  {
    if s != [] {
      NoneLive(s[..|s| - 1]);
    }
  }

  lemma OthersUntouched(instances: seq<Instance>, d: int, action: Action, other: int)
    requires other != d
    ensures InstancesOf(InstancesAfter(instances, d, action), other) == InstancesOf(instances, other)
  {
    match action
    case Drain => MappedGroups(instances, d, DrainedInstance, other);
    case Stop => MappedGroups(instances, d, EvictedFor("stop"), other);
    case Restart => MappedGroups(instances, d, EvictedFor("restart"), other);
    case _ =>
  }

  lemma EvictionLeavesNone(instances: seq<Instance>, d: int, reason: string)
    ensures Filter(Live, InstancesOf(MapSeq(OnDeployment(d, EvictedFor(reason)), instances), d)) == []
  {
    MappedGroups(instances, d, EvictedFor(reason), d);
    NoneLive(MapSeq(EvictedFor(reason), InstancesOf(instances, d)));
  }

  /** The stored status is what aggregating now would give. */
  predicate Fresh(s: Control, d: int)
    requires d in s.deployments
  {
    s.deployments[d].runtime == Aggregate(s.deployments[d].desired, InstancesOf(s.instances, d), 0, 0).runtime
  }

  /** After every successful control call the stored status equals the aggregate over the new desired status and
      the instances as they now are: stopped after stop, draining after drain, not loaded after restart. */
  lemma ControlLeavesFresh(s: Control, policy: Policy, call: Call)
    requires Keyed(s) && Controlled(s, policy, call).reply.Ok?
    ensures var s', d := Controlled(s, policy, call).state, call.deploymentId;
      && d in s'.deployments && Fresh(s', d)
      && DesiredFits(call.action, s'.deployments[d].desired)
      && (call.action.Stop? ==> s'.deployments[d].runtime == RuntimeStopped)
      && (call.action.Drain? ==> s'.deployments[d].runtime == RuntimeDraining)
      && (call.action.Restart? ==> s'.deployments[d].runtime == NotLoaded)
  {
    var d := call.deploymentId;
    match call.action
    case Stop => EvictionLeavesNone(s.instances, d, "stop");
    case Restart => EvictionLeavesNone(s.instances, d, "restart");
    case _ =>
  }

  /** No control call touches another deployment, its instances or its aggregate. */
  lemma ControlIsLocal(s: Control, policy: Policy, call: Call, other: int)
    requires Keyed(s) && other in s.deployments && other != call.deploymentId
    ensures var s' := Controlled(s, policy, call).state;
      && other in s'.deployments && s'.deployments[other] == s.deployments[other]
      && InstancesOf(s'.instances, other) == InstancesOf(s.instances, other)
      && (Fresh(s', other) <==> Fresh(s, other))
  {
    OthersUntouched(s.instances, call.deploymentId, call.action, other);
  }

  // ---- The instance registry ----

  datatype Registration = Registration(
    tenantId: int, projectId: int, deploymentId: int, agentId: int, versionId: int, workerId: string,
    profile: Option<string>)

  function Registered(instances: seq<Instance>, r: Registration, now: int): seq<Instance> {
    instances
    + [Instance(|instances| + 1, r.tenantId, r.projectId, r.deploymentId, r.agentId, r.versionId, r.workerId, r.profile,
                CacheKey(r.deploymentId, r.versionId, r.profile), Loading, None, None, Some(now), 0, None, None)]
  }

  function Readied(i: Instance, now: int): Instance {
    i.(status := Ready, loadedAt := if i.loadedAt.Some? then i.loadedAt else Some(now), lastUsedAt := Some(now),
       heartbeatAt := Some(now), error := None)
  }

  function MarkedFailed(i: Instance, error: string, now: int): Instance {
    i.(status := FailedInstance, error := Some(error), heartbeatAt := Some(now))
  }

  predicate IdleSince(i: Instance, threshold: int) {
    (i.status.Ready? || i.status.Idle?) && i.runningRuns == 0 && i.lastUsedAt.Some? && i.lastUsedAt.value < threshold
  }

  function IdleEvicted(threshold: int): Instance -> Instance {
    (i: Instance) => if IdleSince(i, threshold) then MarkedEvicted(i, "idle_timeout") else i
  }

  /** The instances an idle eviction returns, as it leaves them. */
  function IdleOnes(instances: seq<Instance>, threshold: int): seq<Instance> {
    MapSeq(EvictedFor("idle_timeout"), Filter((i: Instance) => IdleSince(i, threshold), instances))
  }

  lemma IdleStep(s: seq<Instance>, k: nat, threshold: int)
    requires k < |s|
    ensures IdleOnes(s[..k + 1], threshold)
         == IdleOnes(s[..k], threshold)
            + if IdleSince(s[k], threshold) then [MarkedEvicted(s[k], "idle_timeout")] else []
  {
    assert s[..k + 1][..k] == s[..k];
  }

  /** The first available instance under a cache key. */
  function ReadyIndex(instances: seq<Instance>, key: string): (r: Option<nat>)
    ensures r.Some? ==> r.value < |instances| && instances[r.value].cacheKey == key && Available(instances[r.value])
    ensures r.Some? ==> forall j :: 0 <= j < r.value ==> !(instances[j].cacheKey == key && Available(instances[j]))
    ensures r.None? ==> forall j :: 0 <= j < |instances| ==> !(instances[j].cacheKey == key && Available(instances[j]))
  {
    if instances == [] then None
    else
      var n := |instances| - 1;
      var r := ReadyIndex(instances[..n], key);
      if r.Some? then r
      else if instances[n].cacheKey == key && Available(instances[n]) then Some(n)
      else None
  }

  /** Looking up a ready instance also marks it as just used. */
  function Fetched(instances: seq<Instance>, key: string, now: int): seq<Instance> {
    var r := ReadyIndex(instances, key);
    if r.None? then instances else instances[r.value := instances[r.value].(lastUsedAt := Some(now))]
  }

  /** Ids are dense and cache keys are those of the instance's own triple. */
  ghost predicate Registry(instances: seq<Instance>) {
    forall k :: 0 <= k < |instances| ==> InstanceOk(instances, k)
  }

  predicate InstanceOk(instances: seq<Instance>, k: nat)
    requires k < |instances|
  {
    var i := instances[k];
    i.id == k + 1 && i.cacheKey == CacheKey(i.deploymentId, i.versionId, i.profile)
  }

  predicate Serves(i: Instance, d: int, v: int, profile: Option<string>) {
    i.deploymentId == d && i.versionId == v && SameProfile(i.profile, profile)
    && i.status in {Ready, Idle, Busy}
  }

  /** Looking up a ready instance finds one of exactly the asked deployment, version and profile, and finds none
      exactly when there is none. */
  lemma GetReadyExact(instances: seq<Instance>, d: int, v: int, profile: Option<string>)
    requires Registry(instances)
    ensures var r := ReadyIndex(instances, CacheKey(d, v, profile));
      && (r.Some? ==> Serves(instances[r.value], d, v, profile))
      && (r.None? <==> forall k :: 0 <= k < |instances| ==> !Serves(instances[k], d, v, profile))
  {
    forall k | 0 <= k < |instances|
      ensures instances[k].cacheKey == CacheKey(d, v, profile) && Available(instances[k]) <==>
        Serves(instances[k], d, v, profile)
    {
      assert InstanceOk(instances, k);
      var i := instances[k];
      CacheKeyInjective(i.deploymentId, i.versionId, i.profile, d, v, profile);
    }
  }

  // ---- Whole runs ----

  datatype Op =
    | Controlling(call: Call)
    | Registering(registration: Registration, now: int)
    | MarkingReady(instanceId: int, now: int)
    | MarkingFailed(instanceId: int, error: string, now: int)
    | EvictingIdle(maxIdle: int, now: int)
    | Fetching(deploymentId: int, versionId: int, profile: Option<string>, now: int)
    | Summarizing(deploymentId: int, runningRuns: int, queueBacklog: int)

  function Touched(instances: seq<Instance>, id: int, change: Instance -> Instance): seq<Instance> {
    if 1 <= id <= |instances| then instances[id - 1 := change(instances[id - 1])] else instances
  }

  function Step(s: Control, policy: Policy, op: Op): Control {
    match op
    case Controlling(call) => Controlled(s, policy, call).state
    case Registering(r, now) => s.(instances := Registered(s.instances, r, now))
    case MarkingReady(id, now) => s.(instances := Touched(s.instances, id, (i: Instance) => Readied(i, now)))
    case MarkingFailed(id, error, now) =>
      s.(instances := Touched(s.instances, id, (i: Instance) => MarkedFailed(i, error, now)))
    case EvictingIdle(maxIdle, now) => s.(instances := MapSeq(IdleEvicted(now - maxIdle), s.instances))
    case Fetching(d, v, profile, now) => s.(instances := Fetched(s.instances, CacheKey(d, v, profile), now))
    case Summarizing(d, running, backlog) =>
      if d !in s.deployments then s
      else s.(deployments := s.deployments[d := Summarized(s.deployments[d], d, s.instances, running, backlog)])
  }

  function Run(s: Control, policy: Policy, ops: seq<Op>): Control {
    if ops == [] then s else Step(Run(s, policy, ops[..|ops| - 1]), policy, ops[|ops| - 1])
  }

  predicate SameIdentity(i: Instance, j: Instance) {
    && i.id == j.id && i.deploymentId == j.deploymentId && i.versionId == j.versionId && i.profile == j.profile
    && i.cacheKey == j.cacheKey
  }

  lemma ControlAt(instances: seq<Instance>, d: int, action: Action, k: nat)
    requires k < |instances|
    ensures var after := InstancesAfter(instances, d, action);
      && |after| == |instances| && SameIdentity(after[k], instances[k])
      && (Available(after[k]) ==> Available(instances[k]))
      && (instances[k].deploymentId == d && (action.Stop? || action.Drain? || action.Restart?) ==> !Available(after[k]))
  {
    match action
    case Drain => assert InstancesAfter(instances, d, action)[k] == OnDeployment(d, DrainedInstance)(instances[k]);
    case Stop => assert InstancesAfter(instances, d, action)[k] == OnDeployment(d, EvictedFor("stop"))(instances[k]);
    case Restart =>
      assert InstancesAfter(instances, d, action)[k] == OnDeployment(d, EvictedFor("restart"))(instances[k]);
    case _ =>
  }

  /** One step never changes what an instance is, and makes it available only by marking it ready. */
  lemma StepAt(s: Control, policy: Policy, op: Op, k: nat)
    requires k < |s.instances|
    ensures var after := Step(s, policy, op).instances;
      && |s.instances| <= |after| && SameIdentity(after[k], s.instances[k])
      && (Available(after[k]) && !(op.MarkingReady? && op.instanceId == k + 1) ==> Available(s.instances[k]))
  {
    match op
    case Controlling(call) => ControlAt(s.instances, call.deploymentId, call.action, k);
    case EvictingIdle(maxIdle, now) =>
      assert Step(s, policy, op).instances[k] == IdleEvicted(now - maxIdle)(s.instances[k]);
    case _ =>
  }

  lemma StepAdds(s: Control, policy: Policy, op: Op)
    ensures var after := Step(s, policy, op).instances;
      |after| == |s.instances| || (op.Registering? && |after| == |s.instances| + 1)
  {
    if op.Controlling? && s.instances != [] {
      ControlAt(s.instances, op.call.deploymentId, op.call.action, 0);
    }
  }

  lemma StepKeeps(s: Control, policy: Policy, op: Op)
    requires Keyed(s) && Registry(s.instances)
    ensures Keyed(Step(s, policy, op)) && Registry(Step(s, policy, op).instances)
    ensures s.deployments.Keys == Step(s, policy, op).deployments.Keys
    ensures s.audit <= Step(s, policy, op).audit
  {
    var s' := Step(s, policy, op);
    StepAdds(s, policy, op);
    forall k | 0 <= k < |s'.instances| ensures InstanceOk(s'.instances, k) {
      if k < |s.instances| {
        assert InstanceOk(s.instances, k);
        StepAt(s, policy, op, k);
      }
    }
  }

  lemma {:induction false} RunKeeps(s: Control, policy: Policy, ops: seq<Op>)
    requires Keyed(s) && Registry(s.instances)
    ensures Keyed(Run(s, policy, ops)) && Registry(Run(s, policy, ops).instances)
    ensures s.deployments.Keys == Run(s, policy, ops).deployments.Keys
    ensures s.audit <= Run(s, policy, ops).audit
  {
    if ops != [] {
      RunKeeps(s, policy, ops[..|ops| - 1]);
      StepKeeps(Run(s, policy, ops[..|ops| - 1]), policy, ops[|ops| - 1]);
    }
  }

  /** What one more entry makes of the desired status before it. */
  function After(before: Desired, e: AuditEntry, d: int): Desired {
    if e.deploymentId == d && e.verdict.Allowed? then DesiredBy(e.action) else before
  }

  /** The desired status that a deployment's allowed entries, in order, lead to. */
  function Replayed(start: Desired, entries: seq<AuditEntry>, d: int): Desired {
    if entries == [] then start
    else After(Replayed(start, entries[..|entries| - 1], d), entries[|entries| - 1], d)
  }

  predicate SameBinding(x: Deployment, y: Deployment) {
    x.tenantId == y.tenantId && x.projectId == y.projectId && x.agentId == y.agentId && x.versionId == y.versionId
  }

  /** A step either leaves log and desired status alone or adds the one entry that explains its change. */
  lemma StepExplained(s: Control, policy: Policy, op: Op, d: int)
    requires Keyed(s) && d in s.deployments
    ensures var s' := Step(s, policy, op);
      && d in s'.deployments && SameBinding(s'.deployments[d], s.deployments[d])
      && ((s'.audit == s.audit && s'.deployments[d].desired == s.deployments[d].desired)
          || (|s'.audit| == |s.audit| + 1 && s'.audit == s.audit + [s'.audit[|s.audit|]]
              && s'.deployments[d].desired == After(s.deployments[d].desired, s'.audit[|s.audit|], d)))
  {
    if op.Controlling? && op.call.deploymentId in s.deployments {
      var x := s.deployments[op.call.deploymentId];
      assert Step(s, policy, op).audit == s.audit + [AuditOf(x, op.call, VerdictOn(policy, x, op.call))];
    }
  }

  lemma ReplayedNext(start: Desired, log: seq<AuditEntry>, from: nat, e: AuditEntry, d: int)
    requires from <= |log|
    ensures Replayed(start, (log + [e])[from..], d) == After(Replayed(start, log[from..], d), e, d)
  {
    assert (log + [e])[from..] == log[from..] + [e];
    assert (log[from..] + [e])[..|log[from..]|] == log[from..];
  }

  /** The audit log is the truth: replaying a deployment's allowed entries over its status at the start of the
      run gives its desired status at the end. */
  lemma {:induction false} AuditExplainsStatus(s: Control, policy: Policy, ops: seq<Op>, d: int)
    requires Keyed(s) && Registry(s.instances) && d in s.deployments
    ensures d in Run(s, policy, ops).deployments && |s.audit| <= |Run(s, policy, ops).audit|
    ensures SameBinding(Run(s, policy, ops).deployments[d], s.deployments[d])
    ensures Run(s, policy, ops).deployments[d].desired
         == Replayed(s.deployments[d].desired, Run(s, policy, ops).audit[|s.audit|..], d)
  {
    if ops != [] {
      var init := ops[..|ops| - 1];
      RunKeeps(s, policy, init);
      AuditExplainsStatus(s, policy, init, d);
      var r := Run(s, policy, init);
      StepExplained(r, policy, ops[|ops| - 1], d);
      var r' := Step(r, policy, ops[|ops| - 1]);
      if r'.audit != r.audit {
        ReplayedNext(s.deployments[d].desired, r.audit, |s.audit|, r'.audit[|r.audit|], d);
      }
    }
  }

  /** One entry per call on a known deployment, none otherwise; a denied call changes nothing but the log. */
  lemma ControlIsAudited(s: Control, policy: Policy, call: Call)
    ensures var o := Controlled(s, policy, call);
      && (call.deploymentId !in s.deployments ==> o.state == s)
      && (call.deploymentId in s.deployments ==>
            && |o.state.audit| == |s.audit| + 1 && s.audit <= o.state.audit
            && (o.reply.Ok? <==> o.state.audit[|s.audit|].verdict.Allowed?))
      && (o.reply.Err? ==> o.state.deployments == s.deployments && o.state.instances == s.instances)
  {
  }

  /** The tenant, project, agent and version that a new run may ask for; None asks for nothing. */
  datatype Binding = Binding(tenantId: Option<int>, projectId: Option<int>, agentId: Option<int>,
                             versionId: Option<int>)

  /** assert_accepts_new_run */
  function AcceptsNewRun(s: Control, d: int, b: Binding): Result<(), Error> {
    if d !in s.deployments then Err(DeploymentNotFound)
    else
      var x := s.deployments[d];
      if !InScope(x, b.tenantId, b.projectId) then Err(PolicyDenied("deployment_scope_mismatch"))
      else if b.agentId.Some? && x.agentId != b.agentId.value then Err(BindingMismatch)
      else if b.versionId.Some? && x.versionId != b.versionId.value then Err(BindingMismatch)
      else if !x.desired.Active? then Err(NotAccepting)
      else Ok(())
  }

  /** Each refusal, and exactly when it is given. */
  lemma AcceptanceExact(s: Control, d: int, b: Binding)
    ensures var r := AcceptsNewRun(s, d, b);
      && (r == Err(DeploymentNotFound) <==> d !in s.deployments)
      && (d in s.deployments ==>
            var x := s.deployments[d];
            var foreign :=
              || (b.tenantId.Some? && b.tenantId.value != x.tenantId)
              || (b.projectId.Some? && b.projectId.value != x.projectId);
            var other :=
              || (b.agentId.Some? && b.agentId.value != x.agentId)
              || (b.versionId.Some? && b.versionId.value != x.versionId);
            && (r == Err(PolicyDenied("deployment_scope_mismatch")) <==> foreign)
            && (r == Err(BindingMismatch) <==> !foreign && other)
            && (r == Err(NotAccepting) <==> !foreign && !other && x.desired != Active)
            && (r == Ok(()) <==> !foreign && !other && x.desired == Active))
  {
  }

  predicate Granted(e: AuditEntry, d: int) {
    e.deploymentId == d && e.verdict == Allowed
  }

  /** The entry at k is the last one that allowed a call on the deployment. */
  ghost predicate LastGranted(log: seq<AuditEntry>, d: int, k: int) {
    0 <= k < |log| && Granted(log[k], d) && forall j :: k < j < |log| ==> !Granted(log[j], d)
  }

  /** Replaying ends with what the last allowed entry asks for, or where it started if there is none. */
  lemma {:induction false} ReplayedLast(start: Desired, log: seq<AuditEntry>, d: int) returns (last: Option<nat>)
    ensures last.None? ==> Replayed(start, log, d) == start && forall j :: 0 <= j < |log| ==> !Granted(log[j], d)
    ensures last.Some? ==>
      LastGranted(log, d, last.value) && DesiredFits(log[last.value].action, Replayed(start, log, d))
  {
    if log == [] {
      last := None;
    } else if Granted(log[|log| - 1], d) {
      last := Some(|log| - 1);
    } else {
      last := ReplayedLast(start, log[..|log| - 1], d);
    }
  }

  /** So the log also decides which new runs are accepted: those that ask for nothing but the deployment's own tenant,
      project, agent and version, exactly while its last allowed entry is an activate, a resume or a restart, or there
      is none and the deployment was active before. */
  lemma AuditDecidesAcceptance(s: Control, policy: Policy, ops: seq<Op>, d: int, b: Binding)
    requires Keyed(s) && Registry(s.instances) && d in s.deployments
    ensures |s.audit| <= |Run(s, policy, ops).audit|
    ensures var x, log := s.deployments[d], Run(s, policy, ops).audit[|s.audit|..];
      AcceptsNewRun(Run(s, policy, ops), d, b).Ok?
      <==>
      && (b.tenantId.Some? ==> b.tenantId.value == x.tenantId)
      && (b.projectId.Some? ==> b.projectId.value == x.projectId)
      && (b.agentId.Some? ==> b.agentId.value == x.agentId)
      && (b.versionId.Some? ==> b.versionId.value == x.versionId)
      && ((exists k :: LastGranted(log, d, k) && log[k].action in {Activate, Resume, Restart})
          || (x.desired.Active? && forall j :: 0 <= j < |log| ==> !Granted(log[j], d)))
  {
    var x, r := s.deployments[d], Run(s, policy, ops);
    AuditExplainsStatus(s, policy, ops, d);
    var log := r.audit[|s.audit|..];
    var last := ReplayedLast(x.desired, log, d);
    AcceptanceExact(r, d, b);
    assert last.Some? ==> forall k :: LastGranted(log, d, k) ==> k == last.value;
  }

  // ---- When the stored status goes stale ----

  /** The operations that can leave the stored status of a deployment behind its instances: those of the registry that
      change the status of one of them, or add one. */
  predicate Disturbs(s: Control, op: Op, d: int) {
    match op
    case Registering(r, _) => r.deploymentId == d
    case MarkingReady(id, _) => 1 <= id <= |s.instances| && s.instances[id - 1].deploymentId == d
    case MarkingFailed(id, _, _) => 1 <= id <= |s.instances| && s.instances[id - 1].deploymentId == d
    case EvictingIdle(maxIdle, now) => Has(s.instances, d, IdleBy(now - maxIdle))
    case _ => false
  }

  // The aggregate status, read off which kinds of instances there are.

  /** Some instance of the deployment is of this kind. */
  predicate Has(s: seq<Instance>, d: int, p: Instance -> bool) {
    s != [] && (Has(s[..|s| - 1], d, p) || (s[|s| - 1].deploymentId == d && p(s[|s| - 1])))
  }

  /** Some instance other than the one at this position is. */
  predicate HasOther(s: seq<Instance>, d: int, p: Instance -> bool, but: nat)
    requires but < |s|
  {
    Has(s[..but], d, p) || Has(s[but + 1..], d, p)
  }

  lemma {:induction false} HasMeans(s: seq<Instance>, d: int, p: Instance -> bool)
    ensures Has(s, d, p) <==> exists k :: 0 <= k < |s| && s[k].deploymentId == d && p(s[k])
  {
    if s != [] {
      HasMeans(s[..|s| - 1], d, p);
    }
  }

  lemma HasAppended(s: seq<Instance>, x: Instance, d: int, p: Instance -> bool)
    ensures Has(s + [x], d, p) <==> Has(s, d, p) || (x.deploymentId == d && p(x))
  {
    assert (s + [x])[..|s|] == s;
  }

  lemma {:induction false} HasConcat(s: seq<Instance>, t: seq<Instance>, d: int, p: Instance -> bool)
    ensures Has(s + t, d, p) <==> Has(s, d, p) || Has(t, d, p)
  {
    if t == [] {
      assert s + t == s;
    } else {
      assert (s + t)[..|s + t| - 1] == s + t[..|t| - 1];
      HasConcat(s, t[..|t| - 1], d, p);
    }
  }

  lemma HasBetween(a: seq<Instance>, x: Instance, b: seq<Instance>, d: int, p: Instance -> bool)
    requires x.deploymentId == d
    ensures Has(a + [x] + b, d, p) <==> Has(a, d, p) || Has(b, d, p) || p(x)
  {
    HasConcat(a + [x], b, d, p);
    HasAppended(a, x, d, p);
  }

  lemma HasAt(s: seq<Instance>, k: nat, x: Instance, d: int, p: Instance -> bool)
    requires k < |s| && s[k].deploymentId == x.deploymentId == d
    ensures Has(s, d, p) <==> HasOther(s, d, p, k) || p(s[k])
    ensures Has(s[k := x], d, p) <==> HasOther(s, d, p, k) || p(x)
  {
    SplitAt(s, k);
    HasBetween(s[..k], s[k], s[k + 1..], d, p);
    HasBetween(s[..k], x, s[k + 1..], d, p);
    assert s[k := x] == s[..k] + [x] + s[k + 1..];
  }

  lemma {:induction false} HasSame(s: seq<Instance>, t: seq<Instance>, d: int, p: Instance -> bool, q: Instance -> bool)
    requires |s| == |t|
    requires forall k :: 0 <= k < |s| ==>
      s[k].deploymentId == t[k].deploymentId && (s[k].deploymentId == d ==> p(s[k]) == q(t[k]))
    ensures Has(s, d, p) <==> Has(t, d, q)
  {
    if s != [] {
      HasSame(s[..|s| - 1], t[..|t| - 1], d, p, q);
    }
  }

  lemma {:induction false} HasMore(s: seq<Instance>, d: int, p: Instance -> bool, q: Instance -> bool)
    requires forall k :: 0 <= k < |s| && p(s[k]) ==> q(s[k])
    ensures Has(s, d, p) ==> Has(s, d, q)
  {
    if s != [] {
      HasMore(s[..|s| - 1], d, p, q);
    }
  }

  /** Whatever is available, failed or loading is live. */
  lemma HasLive(s: seq<Instance>, d: int)
    ensures Has(s, d, Available) || Has(s, d, IsFailed) || Has(s, d, IsLoading) ==> Has(s, d, Live)
  {
    HasMore(s, d, Available, Live);
    HasMore(s, d, IsFailed, Live);
    HasMore(s, d, IsLoading, Live);
  }

  function StatusIn(desired: Desired, s: seq<Instance>, d: int): Runtime {
    StatusBy(desired, Has(s, d, Live), Has(s, d, Available), Has(s, d, IsFailed), Has(s, d, IsLoading))
  }

  lemma AnyIsHas(s: seq<Instance>, d: int, p: Instance -> bool)
    requires forall i: Instance :: p(i) ==> Live(i)
    ensures Any(p, Filter(Live, InstancesOf(s, d))) <==> Has(s, d, p)
  {
    var live := Filter(Live, InstancesOf(s, d));
    HasMeans(s, d, p);
    GroupMembers(DeploymentOf, s, d);
    FilterMembers(Live, InstancesOf(s, d));
    FilterMembers(p, live);
    if Any(p, live) {
      var i := Filter(p, live)[0];
      assert i in Filter(p, live);
      assert i in s;
    }
    if Has(s, d, p) {
      var k :| 0 <= k < |s| && s[k].deploymentId == d && p(s[k]);
      assert s[k] in Filter(p, live);
    }
  }

  /** The aggregate depends on four questions about the deployment's instances. */
  lemma StatusTable(desired: Desired, s: seq<Instance>, d: int)
    ensures Aggregate(desired, InstancesOf(s, d), 0, 0).runtime == StatusIn(desired, s, d)
  {
    var live := Filter(Live, InstancesOf(s, d));
    FilterMembers(Live, InstancesOf(s, d));
    StatusOfLive(desired, live);
    AnyIsHas(s, d, Available);
    AnyIsHas(s, d, IsFailed);
    AnyIsHas(s, d, IsLoading);
    AnyIsHas(s, d, Live);
    FilterOfAll(Live, live);
  }

  /** The stored status is fresh exactly when it is what the table says. */
  lemma FreshBy(s: Control, d: int)
    requires d in s.deployments
    ensures Fresh(s, d) <==> s.deployments[d].runtime == StatusIn(s.deployments[d].desired, s.instances, d)
  {
    StatusTable(s.deployments[d].desired, s.instances, d);
  }

  /** Available, and spared by an idle eviction. */
  function SparedBy(threshold: int): Instance -> bool {
    (i: Instance) => Available(i) && !IdleSince(i, threshold)
  }

  function IdleBy(threshold: int): Instance -> bool {
    (i: Instance) => IdleSince(i, threshold)
  }

  /** When a disturbing operation leaves the aggregate as it was, by the instances before the call: a draining
      deployment stays draining; a new, loading instance changes nothing beside one that is available or loading; one
      marked as ready needs another available one or to be so already, and must not have been the only failed one; one
      marked as failed must fit in with what the others amount to; an idle eviction must spare an available one. */
  predicate KeepsAggregate(s: seq<Instance>, op: Op, d: int, desired: Desired) {
    desired.Draining? ||
    match op
    case Registering(_, _) => Has(s, d, Available) || Has(s, d, IsLoading)
    case MarkingReady(id, _) => 1 <= id <= |s| ==> ReadyFits(s, id - 1, d)
    case MarkingFailed(id, _, _) => 1 <= id <= |s| ==> FailedFits(s, id - 1, d)
    case EvictingIdle(maxIdle, now) => Has(s, d, SparedBy(now - maxIdle))
    case _ => true
  }

  predicate ReadyFits(s: seq<Instance>, k: nat, d: int)
    requires k < |s|
  {
    Has(s, d, Available) && (IsFailed(s[k]) ==> HasOther(s, d, IsFailed, k))
  }

  predicate FailedFits(s: seq<Instance>, k: nat, d: int)
    requires k < |s|
  {
    if HasOther(s, d, Available, k) then Has(s, d, IsFailed)
    else if HasOther(s, d, IsLoading, k) then !Available(s[k])
    else !Available(s[k]) && !IsLoading(s[k]) && Has(s, d, IsFailed)
  }

  lemma RegisteringAggregate(s: seq<Instance>, x: Instance, d: int, desired: Desired)
    requires x.deploymentId == d && x.status.Loading?
    ensures StatusIn(desired, s + [x], d) == StatusIn(desired, s, d)
       <==> desired.Draining? || Has(s, d, Available) || Has(s, d, IsLoading)
  {
    HasAppended(s, x, d, Live);
    HasAppended(s, x, d, Available);
    HasAppended(s, x, d, IsFailed);
    HasAppended(s, x, d, IsLoading);
    HasLive(s, d);
  }

  lemma ReadyAggregate(s: seq<Instance>, k: nat, x: Instance, d: int, desired: Desired)
    requires k < |s| && s[k].deploymentId == x.deploymentId == d && x.status.Ready?
    ensures StatusIn(desired, s[k := x], d) == StatusIn(desired, s, d) <==> desired.Draining? || ReadyFits(s, k, d)
  {
    HasAt(s, k, x, d, Live);
    HasAt(s, k, x, d, Available);
    HasAt(s, k, x, d, IsFailed);
    HasLive(s, d);
  }

  lemma FailedAggregate(s: seq<Instance>, k: nat, x: Instance, d: int, desired: Desired)
    requires k < |s| && s[k].deploymentId == x.deploymentId == d && x.status.FailedInstance?
    ensures StatusIn(desired, s[k := x], d) == StatusIn(desired, s, d) <==> desired.Draining? || FailedFits(s, k, d)
  {
    HasAt(s, k, x, d, Live);
    HasAt(s, k, x, d, Available);
    HasAt(s, k, x, d, IsFailed);
    HasAt(s, k, x, d, IsLoading);
    HasLive(s, d);
  }

  lemma EvictingAggregate(s: seq<Instance>, threshold: int, d: int, desired: Desired)
    requires Has(s, d, IdleBy(threshold))
    ensures StatusIn(desired, MapSeq(IdleEvicted(threshold), s), d) == StatusIn(desired, s, d)
       <==> desired.Draining? || Has(s, d, SparedBy(threshold))
  {
    var t := MapSeq(IdleEvicted(threshold), s);
    HasMore(s, d, IdleBy(threshold), Available);
    HasSame(s, t, d, IsFailed, IsFailed);
    HasSame(s, t, d, SparedBy(threshold), Available);
    HasLive(s, d);
    HasLive(t, d);
  }

  /** Operations of the registry that do not disturb a deployment leave its aggregate alone. */
  lemma UndisturbedAggregate(s: Control, policy: Policy, op: Op, d: int, desired: Desired)
    requires !op.Controlling? && !Disturbs(s, op, d)
    ensures StatusIn(desired, Step(s, policy, op).instances, d) == StatusIn(desired, s.instances, d)
  {
    var t, t' := s.instances, Step(s, policy, op).instances;
    if op.Registering? {
      HasAppended(t, t'[|t|], d, Live);
      HasAppended(t, t'[|t|], d, Available);
      HasAppended(t, t'[|t|], d, IsFailed);
      HasAppended(t, t'[|t|], d, IsLoading);
    } else {
      StepAdds(s, policy, op);
      if op.EvictingIdle? {
        HasMeans(t, d, IdleBy(op.now - op.maxIdle));
      }
      forall k | 0 <= k < |t|
        ensures t'[k].deploymentId == t[k].deploymentId && (t[k].deploymentId == d ==> t'[k].status == t[k].status)
      {
        StepAt(s, policy, op, k);
        if op.EvictingIdle? {
          assert t'[k] == IdleEvicted(op.now - op.maxIdle)(t[k]);
          assert t[k].deploymentId == d ==> !IdleBy(op.now - op.maxIdle)(t[k]);
        }
      }
      HasSame(t, t', d, Live, Live);
      HasSame(t, t', d, Available, Available);
      HasSame(t, t', d, IsFailed, IsFailed);
      HasSame(t, t', d, IsLoading, IsLoading);
    }
  }

  /** The instances after a disturbing operation. */
  function InstancesWith(t: seq<Instance>, op: Op): seq<Instance> {
    match op
    case Registering(r, now) => t + [Registered(t, r, now)[|t|]]
    case MarkingReady(id, now) => if 1 <= id <= |t| then t[id - 1 := Readied(t[id - 1], now)] else t
    case MarkingFailed(id, error, now) => if 1 <= id <= |t| then t[id - 1 := MarkedFailed(t[id - 1], error, now)] else t
    case EvictingIdle(maxIdle, now) => MapSeq(IdleEvicted(now - maxIdle), t)
    case _ => t
  }

  lemma DisturbedInstances(s: Control, policy: Policy, op: Op, d: int)
    requires Disturbs(s, op, d)
    ensures Step(s, policy, op).instances == InstancesWith(s.instances, op)
  {
  }

  lemma DisturbedAggregate(s: Control, op: Op, d: int, desired: Desired)
    requires Disturbs(s, op, d)
    ensures StatusIn(desired, InstancesWith(s.instances, op), d) == StatusIn(desired, s.instances, d)
       <==> KeepsAggregate(s.instances, op, d, desired)
  {
    var t := s.instances;
    match op
    case Registering(r, now) => RegisteringAggregate(t, Registered(t, r, now)[|t|], d, desired);
    case MarkingReady(id, now) => ReadyAggregate(t, id - 1, Readied(t[id - 1], now), d, desired);
    case MarkingFailed(id, error, now) => FailedAggregate(t, id - 1, MarkedFailed(t[id - 1], error, now), d, desired);
    case EvictingIdle(maxIdle, now) => EvictingAggregate(t, now - maxIdle, d, desired);
  }

  /** Whatever the operation, a fresh status is fresh afterwards exactly if the operation does not disturb the
      deployment or leaves the aggregate as it was, which its instances before the call decide. */
  lemma FreshExactly(s: Control, policy: Policy, op: Op, d: int)
    requires Keyed(s) && d in s.deployments && Fresh(s, d)
    ensures d in Step(s, policy, op).deployments
    ensures Fresh(Step(s, policy, op), d)
       <==> !Disturbs(s, op, d) || KeepsAggregate(s.instances, op, d, s.deployments[d].desired)
  {
    if op.Controlling? {
      if op.call.deploymentId != d {
        ControlIsLocal(s, policy, op.call, d);
      } else if Controlled(s, policy, op.call).reply.Ok? {
        ControlLeavesFresh(s, policy, op.call);
      }
    } else if op.Summarizing? && op.deploymentId == d {
      SummaryRefreshes(s, policy, d, op.runningRuns, op.queueBacklog);
    } else {
      FreshBy(s, d);
      FreshBy(Step(s, policy, op), d);
      if Disturbs(s, op, d) {
        DisturbedInstances(s, policy, op, d);
        DisturbedAggregate(s, op, d, s.deployments[d].desired);
      } else {
        UndisturbedAggregate(s, policy, op, d, s.deployments[d].desired);
      }
    }
  }

  /** A summary makes the status fresh again, whatever happened before. */
  lemma SummaryRefreshes(s: Control, policy: Policy, d: int, runningRuns: int, queueBacklog: int)
    requires d in s.deployments
    ensures Fresh(Step(s, policy, Summarizing(d, runningRuns, queueBacklog)), d)
  {
  }

  predicate NeverLeftBehind(s: Control, policy: Policy, ops: seq<Op>, d: int)
    requires d in s.deployments
  {
    ops == [] || (NeverLeftBehind(s, policy, ops[..|ops| - 1], d)
                  && var r := Run(s, policy, ops[..|ops| - 1]);
                     d in r.deployments && (Disturbs(r, ops[|ops| - 1], d) ==>
                       KeepsAggregate(r.instances, ops[|ops| - 1], d, r.deployments[d].desired)))
  }

  /** So from any state, a summary and then any run of operations that keep the aggregate end with a fresh status. */
  lemma {:induction false} FreshSinceSummary(s: Control, policy: Policy, d: int, runningRuns: int, queueBacklog: int,
                                             ops: seq<Op>)
    requires Keyed(s) && Registry(s.instances) && d in s.deployments
    requires NeverLeftBehind(Step(s, policy, Summarizing(d, runningRuns, queueBacklog)), policy, ops, d)
    ensures var r := Run(Step(s, policy, Summarizing(d, runningRuns, queueBacklog)), policy, ops);
      d in r.deployments && Fresh(r, d)
  {
    var s1 := Step(s, policy, Summarizing(d, runningRuns, queueBacklog));
    if ops == [] {
      SummaryRefreshes(s, policy, d, runningRuns, queueBacklog);
    } else {
      var init := ops[..|ops| - 1];
      FreshSinceSummary(s, policy, d, runningRuns, queueBacklog, init);
      StepKeeps(s, policy, Summarizing(d, runningRuns, queueBacklog));
      RunKeeps(s1, policy, init);
      FreshExactly(Run(s1, policy, init), policy, ops[|ops| - 1], d);
    }
  }

  lemma StatusOfOne(x: Instance)
    ensures StatusIn(Active, [x], x.deploymentId) == StatusBy(Active, Live(x), Available(x), IsFailed(x), IsLoading(x))
  {
    assert [x] == [] + [x];
    HasAppended([], x, x.deploymentId, Live);
    HasAppended([], x, x.deploymentId, Available);
    HasAppended([], x, x.deploymentId, IsFailed);
    HasAppended([], x, x.deploymentId, IsLoading);
  }

  predicate FreshAt(s: Control, d: int) {
    d in s.deployments && Fresh(s, d)
  }

  lemma FreshWithOne(s: Control, x: Instance)
    requires x.deploymentId in s.deployments && s.instances == [x] && s.deployments[x.deploymentId].desired.Active?
    ensures FreshAt(s, x.deploymentId) <==>
      s.deployments[x.deploymentId].runtime == StatusBy(Active, Live(x), Available(x), IsFailed(x), IsLoading(x))
  {
    FreshBy(s, x.deploymentId);
    StatusOfOne(x);
  }

  /** A stale status can also become right by itself: an active deployment's first instance is registered, marked as
      ready and evicted as idle, and the stored status is wrong, wrong and right again. */
  lemma StaleComesRight(s: Control, policy: Policy, r: Registration, now: int)
    requires FreshAt(s, r.deploymentId) && s.instances == [] && s.deployments[r.deploymentId].desired.Active?
    ensures var s1 := Step(s, policy, Registering(r, now));
      var s2 := Step(s1, policy, MarkingReady(1, now));
      var s3 := Step(s2, policy, EvictingIdle(0, now + 1));
      !FreshAt(s1, r.deploymentId) && !FreshAt(s2, r.deploymentId) && FreshAt(s3, r.deploymentId)
  {
    var x := Registered([], r, now)[0];
    var y := Readied(x, now);
    var s1 := s.(instances := [x]);
    var s2 := s.(instances := [y]);
    var s3 := s.(instances := [MarkedEvicted(y, "idle_timeout")]);
    assert Step(s, policy, Registering(r, now)) == s1;
    assert Step(s1, policy, MarkingReady(1, now)) == s2;
    assert MapSeq(IdleEvicted(now + 1), [y]) == s3.instances;
    assert Step(s2, policy, EvictingIdle(0, now + 1)) == s3;
    FreshBy(s, r.deploymentId);
    FreshWithOne(s1, x);
    FreshWithOne(s2, y);
    FreshWithOne(s3, MarkedEvicted(y, "idle_timeout"));
  }

  // ---- No ready instance after stop, drain or restart ----

  predicate Quiet(instances: seq<Instance>, d: int) {
    forall k :: 0 <= k < |instances| && instances[k].deploymentId == d ==> !Available(instances[k])
  }

  predicate Wakes(instances: seq<Instance>, op: Op, d: int) {
    op.MarkingReady? && 1 <= op.instanceId <= |instances| && instances[op.instanceId - 1].deploymentId == d
  }

  predicate NeverWakes(s: Control, policy: Policy, ops: seq<Op>, d: int) {
    ops == [] || (NeverWakes(s, policy, ops[..|ops| - 1], d)
                  && !Wakes(Run(s, policy, ops[..|ops| - 1]).instances, ops[|ops| - 1], d))
  }

  lemma ControlQuiets(s: Control, policy: Policy, call: Call)
    requires Keyed(s) && Controlled(s, policy, call).reply.Ok?
    requires call.action.Stop? || call.action.Drain? || call.action.Restart?
    ensures Quiet(Controlled(s, policy, call).state.instances, call.deploymentId)
  {
    var after := Controlled(s, policy, call).state.instances;
    StepAdds(s, policy, Controlling(call));
    forall k | 0 <= k < |after| && after[k].deploymentId == call.deploymentId ensures !Available(after[k]) {
      ControlAt(s.instances, call.deploymentId, call.action, k);
    }
  }

  lemma {:induction false} StaysQuiet(s: Control, policy: Policy, ops: seq<Op>, d: int)
    requires Quiet(s.instances, d) && NeverWakes(s, policy, ops, d)
    ensures Quiet(Run(s, policy, ops).instances, d)
  {
    if ops != [] {
      StaysQuiet(s, policy, ops[..|ops| - 1], d);
      var r, op := Run(s, policy, ops[..|ops| - 1]), ops[|ops| - 1];
      var after := Step(r, policy, op).instances;
      StepAdds(r, policy, op);
      forall k | 0 <= k < |after| && after[k].deploymentId == d ensures !Available(after[k]) {
        if k < |r.instances| {
          StepAt(r, policy, op, k);
        }
      }
    }
  }

  /** After a successful stop, drain or restart no lookup finds an instance of the deployment, whatever else
      happens, until one of its instances is marked ready. */
  lemma NoneReadyUntilMarked(s: Control, policy: Policy, call: Call, ops: seq<Op>, v: int, profile: Option<string>)
    requires Keyed(s) && Registry(s.instances) && Controlled(s, policy, call).reply.Ok?
    requires call.action.Stop? || call.action.Drain? || call.action.Restart?
    requires NeverWakes(Controlled(s, policy, call).state, policy, ops, call.deploymentId)
    ensures ReadyIndex(Run(Controlled(s, policy, call).state, policy, ops).instances,
                       CacheKey(call.deploymentId, v, profile)).None?
  {
    var s1 := Controlled(s, policy, call).state;
    ControlQuiets(s, policy, call);
    StaysQuiet(s1, policy, ops, call.deploymentId);
    StepKeeps(s, policy, Controlling(call));
    RunKeeps(s1, policy, ops);
    GetReadyExact(Run(s1, policy, ops).instances, call.deploymentId, v, profile);
  }

  lemma RegistryTouched(before: seq<Instance>, after: seq<Instance>)
    requires Registry(before) && |before| == |after|
    requires forall k :: 0 <= k < |before| ==> SameIdentity(after[k], before[k])
    ensures Registry(after)
  {
    forall k | 0 <= k < |after| ensures InstanceOk(after, k) {
      assert InstanceOk(before, k) && SameIdentity(after[k], before[k]);
    }
  }

  lemma RegistryEvicted(before: seq<Instance>, threshold: int)
    requires Registry(before)
    ensures Registry(MapSeq(IdleEvicted(threshold), before))
  {
    RegistryTouched(before, MapSeq(IdleEvicted(threshold), before));
  }

  class AgentInstanceRegistry {
    var instances: seq<Instance>

    ghost predicate Valid()
      reads this
    {
      Registry(instances)
    }

    constructor ()
      ensures Valid() && instances == []
    {
      instances := [];
    }

    method RegisterLoading(r: Registration, now: int) returns (i: Instance)
      requires Valid()
      modifies this
      ensures Valid() && instances == Registered(old(instances), r, now) && i == instances[|old(instances)|]
    {
      i := Instance(|instances| + 1, r.tenantId, r.projectId, r.deploymentId, r.agentId, r.versionId, r.workerId,
                    r.profile, CacheKey(r.deploymentId, r.versionId, r.profile), Loading, None, None, Some(now), 0,
                    None, None);
      forall k | 0 <= k < |instances| ensures InstanceOk(instances + [i], k) {
        assert InstanceOk(instances, k);
      }
      instances := instances + [i];
    }

    /** The loop over the instances. */
    method FindReady(key: string) returns (found: Option<nat>)
      ensures found == ReadyIndex(instances, key)
    {
      for k := 0 to |instances|
        invariant forall j :: 0 <= j < k ==> !(instances[j].cacheKey == key && Available(instances[j]))
      {
        if instances[k].cacheKey == key && Available(instances[k]) {
          return Some(k);
        }
      }
      found := None;
    }

    /** Finds an available instance of exactly this deployment, version and profile, if there is one. */
    method GetReady(d: int, v: int, profile: Option<string>, now: int) returns (found: Option<Instance>)
      requires Valid()
      modifies this
      ensures Valid() && instances == Fetched(old(instances), CacheKey(d, v, profile), now)
      ensures found.Some? ==> Serves(found.value, d, v, profile) && found.value in instances
      ensures found.None? <==> forall k :: 0 <= k < |old(instances)| ==> !Serves(old(instances)[k], d, v, profile)
    {
      GetReadyExact(instances, d, v, profile);
      var k := FindReady(CacheKey(d, v, profile));
      if k.None? {
        return None;
      }
      var i := instances[k.value].(lastUsedAt := Some(now));
      instances := instances[k.value := i];
      RegistryTouched(old(instances), instances);
      found := Some(i);
    }

    method MarkReady(id: int, now: int) returns (r: Option<Instance>)
      requires Valid()
      modifies this
      ensures Valid() && instances == Touched(old(instances), id, (i: Instance) => Readied(i, now))
      ensures r == if 1 <= id <= |instances| then Some(instances[id - 1]) else None
    {
      if !(1 <= id <= |instances|) {
        return None;
      }
      var i := instances[id - 1];
      i := i.(status := Ready, loadedAt := if i.loadedAt.Some? then i.loadedAt else Some(now));
      instances := instances[id - 1 := i.(lastUsedAt := Some(now), heartbeatAt := Some(now), error := None)];
      RegistryTouched(old(instances), instances);
      r := Some(instances[id - 1]);
    }

    method MarkFailed(id: int, error: string, now: int) returns (r: Option<Instance>)
      requires Valid()
      modifies this
      ensures Valid() && instances == Touched(old(instances), id, (i: Instance) => MarkedFailed(i, error, now))
      ensures r == if 1 <= id <= |instances| then Some(instances[id - 1]) else None
    {
      if !(1 <= id <= |instances|) {
        return None;
      }
      var i := instances[id - 1].(status := FailedInstance, error := Some(error), heartbeatAt := Some(now));
      instances := instances[id - 1 := i];
      RegistryTouched(old(instances), instances);
      r := Some(instances[id - 1]);
    }

    /** The loop over a deployment's instances that a drain or an eviction runs. */
    method ChangeInstances(d: int, change: Instance -> Instance)
      modifies this
      ensures instances == MapSeq(OnDeployment(d, change), old(instances))
    {
      ghost var before := instances;
      for k := 0 to |instances|
        invariant |instances| == |before|
        invariant forall j :: 0 <= j < k ==> instances[j] == OnDeployment(d, change)(before[j])
        invariant forall j :: k <= j < |instances| ==> instances[j] == before[j]
      {
        if instances[k].deploymentId == d {
          instances := instances[k := change(instances[k])];
        }
      }
    }

    method EvictIdle(maxIdle: int, now: int) returns (evicted: seq<Instance>)
      requires Valid()
      modifies this
      ensures Valid() && instances == MapSeq(IdleEvicted(now - maxIdle), old(instances))
      ensures evicted == IdleOnes(old(instances), now - maxIdle)
    {
      ghost var before := instances;
      var threshold := now - maxIdle;
      evicted := [];
      for k := 0 to |instances|
        invariant |instances| == |before|
        invariant forall j :: 0 <= j < k ==> instances[j] == IdleEvicted(threshold)(before[j])
        invariant forall j :: k <= j < |instances| ==> instances[j] == before[j]
        invariant evicted == IdleOnes(before[..k], threshold)
      {
        IdleStep(before, k, threshold);
        var i := instances[k];
        if (i.status == Ready || i.status == Idle) && i.runningRuns == 0 && i.lastUsedAt.Some?
           && i.lastUsedAt.value < threshold {
          instances := instances[k := i.(status := Evicted, runningRuns := 0, evictReason := Some("idle_timeout"))];
          evicted := evicted + [instances[k]];
        }
      }
      assert before[..|before|] == before;
      RegistryEvicted(before, threshold);
      assert instances == MapSeq(IdleEvicted(threshold), before);
    }
  }

  class DeploymentRuntimeControlService {
    const policy: Policy
    const registry: AgentInstanceRegistry
    var deployments: map<int, Deployment>
    var audit: seq<AuditEntry>

    ghost function View(): Control
      reads this, registry
    {
      Control(deployments, registry.instances, audit)
    }

    ghost predicate Valid()
      reads this, registry
    {
      Keyed(View()) && registry.Valid()
    }

    constructor (policy: Policy, deployments: map<int, Deployment>, registry: AgentInstanceRegistry)
      requires registry.Valid() && forall d :: d in deployments ==> deployments[d].id == d
      ensures Valid() && this.policy == policy && this.registry == registry
      ensures View() == Control(deployments, registry.instances, [])
    {
      this.policy, this.registry := policy, registry;
      this.deployments, audit := deployments, [];
    }

    /** _control: the shared part of all six operations. */
    method Steer(call: Call) returns (r: Result<Deployment, Error>)
      requires Valid()
      modifies this`deployments, this`audit
      ensures r.Ok? <==> Controlled(old(View()), policy, call).reply.Ok?
      ensures r.Err? ==> Outcome(View(), r) == Controlled(old(View()), policy, call)
      ensures r.Ok? ==>
        audit == Controlled(old(View()), policy, call).state.audit && call.deploymentId in old(deployments)
      ensures r.Ok? ==> r.value == Steered(old(deployments)[call.deploymentId], call.deploymentId, call.action,
                                           registry.instances)
      ensures r.Ok? ==> deployments == old(deployments)[call.deploymentId := r.value] && r.value.id == call.deploymentId
    {
      if call.deploymentId !in deployments {
        return Err(DeploymentNotFound);
      }
      var d := deployments[call.deploymentId];
      if !InScope(d, call.tenantId, call.projectId) {
        audit := audit + [AuditOf(d, call, Denied("deployment_scope_mismatch"))];
        return Err(PolicyDenied("deployment_scope_mismatch"));
      }
      var decision := policy(call.actor, call.action, d);
      if !decision.allowed {
        var given := decision.reason;
        var reason := if given.None? || given.value == "" then "policy_denied" else given.value;
        audit := audit + [AuditOf(d, call, Denied(reason))];
        return Err(PolicyDenied(reason));
      }
      var desired := DesiredBy(call.action);
      d := d.(desired := desired);
      if desired.Stopped? {
        d := d.(runtime := RuntimeStopped);
      } else if desired.Draining? {
        d := d.(runtime := RuntimeDraining);
      } else {
        var s := AggregateRuntimeStatus(desired, InstancesOf(registry.instances, call.deploymentId), 0, 0);
        d := d.(runtime := s.runtime);
      }
      deployments := deployments[d.id := d];
      audit := audit + [AuditOf(d, call, Allowed)];
      r := Ok(d);
    }

    method AssertAcceptsNewRun(d: int, b: Binding) returns (r: Result<(), Error>)
      ensures r == AcceptsNewRun(View(), d, b)
    {
      if d !in deployments {
        return Err(DeploymentNotFound);
      }
      var x := deployments[d];
      if b.tenantId.Some? && x.tenantId != b.tenantId.value {
        return Err(PolicyDenied("deployment_scope_mismatch"));
      }
      if b.projectId.Some? && x.projectId != b.projectId.value {
        return Err(PolicyDenied("deployment_scope_mismatch"));
      }
      if b.agentId.Some? && x.agentId != b.agentId.value {
        return Err(BindingMismatch);
      }
      if b.versionId.Some? && x.versionId != b.versionId.value {
        return Err(BindingMismatch);
      }
      r := if x.desired.Active? then Ok(()) else Err(NotAccepting);
    }

    method Summarize(d: int, runningRuns: int, queueBacklog: int) returns (r: Result<Summary, Error>)
      requires Valid()
      modifies this`deployments
      ensures Valid() && View() == Step(old(View()), policy, Summarizing(d, runningRuns, queueBacklog))
      ensures r == if d !in deployments then Err(DeploymentNotFound)
                   else Ok(Aggregate(old(deployments)[d].desired, InstancesOf(registry.instances, d), runningRuns,
                                     queueBacklog))
    {
      if d !in deployments {
        return Err(DeploymentNotFound);
      }
      var x := deployments[d];
      var s := AggregateRuntimeStatus(x.desired, InstancesOf(registry.instances, d), runningRuns, queueBacklog);
      deployments := deployments[d := x.(runtime := s.runtime, lastError := s.lastError)];
      r := Ok(s);
    }

    method ActivatePauseResume(call: Call) returns (r: Result<Deployment, Error>)
      requires Valid() && (call.action.Activate? || call.action.Pause? || call.action.Resume?)
      modifies this`deployments, this`audit
      ensures Obeys(old(View()), policy, call, View(), r)
      ensures Valid() && Outcome(View(), r) == Controlled(old(View()), policy, call)
    {
      ghost var before := View();
      r := Steer(call);
      StepKeeps(before, policy, Controlling(call));
      ControlExact(before, policy, call, Outcome(View(), r));
    }

    method DrainStop(call: Call) returns (r: Result<Deployment, Error>)
      requires Valid() && (call.action.Drain? || call.action.Stop?)
      modifies this, registry
      ensures Obeys(old(View()), policy, call, View(), r)
      ensures Valid() && Outcome(View(), r) == Controlled(old(View()), policy, call)
    {
      ghost var before := View();
      r := Steer(call);
      if r.Ok? {
        if call.action.Drain? {
          registry.ChangeInstances(call.deploymentId, DrainedInstance);
        } else {
          registry.ChangeInstances(call.deploymentId, EvictedFor("stop"));
          r := Ok(r.value.(runtime := RuntimeStopped));
        }
      }
      StepKeeps(before, policy, Controlling(call));
      ControlExact(before, policy, call, Outcome(View(), r));
    }

    /** Evict the deployment's instances and store the summary over what is left. */
    method Reload(d: int, steered: Deployment) returns (x: Deployment)
      modifies this`deployments, registry
      ensures registry.instances == MapSeq(OnDeployment(d, EvictedFor("restart")), old(registry.instances))
      ensures x == Summarized(steered, d, registry.instances, 0, 0) && deployments == old(deployments)[d := x]
    {
      registry.ChangeInstances(d, EvictedFor("restart"));
      var s := AggregateRuntimeStatus(steered.desired, InstancesOf(registry.instances, d), 0, 0);
      x := steered.(runtime := s.runtime, lastError := s.lastError);
      deployments := deployments[d := x];
    }

    method RestartDeployment(call: Call) returns (r: Result<Deployment, Error>)
      requires Valid() && call.action.Restart?
      modifies this, registry
      ensures Obeys(old(View()), policy, call, View(), r)
      ensures Valid() && Outcome(View(), r) == Controlled(old(View()), policy, call)
    {
      ghost var before := View();
      r := Steer(call);
      if r.Ok? {
        var x := Reload(call.deploymentId, r.value);
        r := Ok(x);
        assert deployments == before.deployments[call.deploymentId := x];
        assert Outcome(View(), r) == Controlled(before, policy, call);
      }
      StepKeeps(before, policy, Controlling(call));
      ControlExact(before, policy, call, Outcome(View(), r));
    }

    /** Any operation of a mixed run, on the service or on its registry. */
    method Perform(op: Op)
      requires Valid()
      modifies this, registry
      ensures Valid() && View() == Step(old(View()), policy, op)
    {
      match op
      case Controlling(call) =>
        if call.action.Restart? {
          var _ := RestartDeployment(call);
        } else if call.action.Drain? || call.action.Stop? {
          var _ := DrainStop(call);
        } else {
          var _ := ActivatePauseResume(call);
        }
      case Registering(r, now) => var _ := registry.RegisterLoading(r, now);
      case MarkingReady(id, now) => var _ := registry.MarkReady(id, now);
      case MarkingFailed(id, error, now) => var _ := registry.MarkFailed(id, error, now);
      case EvictingIdle(maxIdle, now) => var _ := registry.EvictIdle(maxIdle, now);
      case Fetching(d, v, profile, now) => var _ := registry.GetReady(d, v, profile, now);
      case Summarizing(d, runningRuns, queueBacklog) => var _ := Summarize(d, runningRuns, queueBacklog);
    }

    method PerformAll(ops: seq<Op>)
      requires Valid()
      modifies this, registry
      ensures Valid() && View() == Run(old(View()), policy, ops)
    {
      ghost var before := View();
      for i := 0 to |ops|
        invariant Valid() && View() == Run(before, policy, ops[..i])
      {
        Perform(ops[i]);
        assert ops[..i + 1][..i] == ops[..i];
      }
      assert ops[..|ops|] == ops;
    }
  }
}
