/** costs/enforcement.py: the persisted budget policies decide whether a new run is blocked or warned about. */
module Enforcement {
  import opened Common
  import opened DecimalText
  import opened Sums
  import opened Partition
  import opened Attribution
  import opened Budget

  datatype Policy = Policy(
    id: int, name: string, actionMode: ActionMode, scope: Scope, scopeRef: Option<string>,
    environment: Option<string>, resetWindow: ResetWindow, threshold: real, channelId: int)

  datatype Channel = Channel(targetRef: string, status: string)

  datatype Hit = Hit(policy: Policy, currentSpend: real, channelName: string, notificationChannel: string)

  datatype Decision = Decision(blocking: Option<Hit>, warnings: seq<Hit>)

  /** The usage store as the previews see it: the rows of a window of days in an environment. */
  type Usage = (int, string) -> seq<UsageRow>

  function ChannelName(channels: map<int, Channel>, id: int): string {
    if id in channels && channels[id].status == "active" then channels[id].targetRef else "channel:" + IntText(id)
  }

  function PolicyPreview(p: Policy, environment: string, usage: Usage): Preview {
    BuildPreview(usage(WindowDays(p.resetWindow), OrElse(p.environment, environment)),
                 p.threshold, p.scope, p.scopeRef, p.resetWindow)
  }

  /** Which policies would trigger. */
  function Fires(environment: string, usage: Usage): Policy -> bool {
    p => PolicyPreview(p, environment, usage).wouldTrigger
  }

  function Hits(environment: string, usage: Usage, channels: map<int, Channel>): Policy -> Hit {
    (p: Policy) => Hit(p, PolicyPreview(p, environment, usage).currentSpend,
                       ChannelName(channels, p.channelId), ChannelName(channels, p.channelId))
  }

  function WarningHits(policies: seq<Policy>, fires: Policy -> bool, hit: Policy -> Hit): seq<Hit> {
    if policies == [] then []
    else
      var last := policies[|policies| - 1];
      var before := WarningHits(policies[..|policies| - 1], fires, hit);
      if fires(last) && last.actionMode.Warn? then before + [hit(last)] else before
  }

  ghost predicate FirstBlocking(policies: seq<Policy>, fires: Policy -> bool, i: int) {
    && 0 <= i < |policies|
    && fires(policies[i]) && !policies[i].actionMode.Warn?
    && forall j :: 0 <= j < i && fires(policies[j]) ==> policies[j].actionMode.Warn?
  }

  /** The blocking hit is that of the first fired policy that does not merely warn, if there is one; the
      warnings are the hits of the fired warning policies, in policy order. */
  ghost predicate Decides(policies: seq<Policy>, fires: Policy -> bool, hit: Policy -> Hit, d: Decision) {
    && (d.blocking.None? ==> forall p <- policies :: fires(p) ==> p.actionMode.Warn?)
    && (d.blocking.Some? ==> exists i :: FirstBlocking(policies, fires, i) && d.blocking.value == hit(policies[i]))
    && d.warnings == WarningHits(policies, fires, hit)
  }

  /** What one policy adds to the decision. */
  function Next(d: Decision, p: Policy, fires: Policy -> bool, hit: Policy -> Hit): Decision {
    if !fires(p) then d
    else if p.actionMode.Warn? then d.(warnings := d.warnings + [hit(p)])
    else if d.blocking.None? then d.(blocking := Some(hit(p)))
    else d
  }

  lemma NextDecides(before: seq<Policy>, p: Policy, fires: Policy -> bool, hit: Policy -> Hit, d: Decision)
    requires Decides(before, fires, hit, d)
    ensures Decides(before + [p], fires, hit, Next(d, p, fires, hit))
  {
    var after := before + [p];
    assert after[..|before|] == before;
    assert forall q :: q in after <==> q in before || q == p;
    if d.blocking.Some? {
      var i :| FirstBlocking(before, fires, i) && d.blocking.value == hit(before[i]);
      assert FirstBlocking(after, fires, i);
    } else if fires(p) && !p.actionMode.Warn? {
      assert forall j :: 0 <= j < |before| ==> before[j] in before && after[j] == before[j];
      assert FirstBlocking(after, fires, |before|);
    }
  }

  method DecideAll(policies: seq<Policy>, fires: Policy -> bool, hit: Policy -> Hit) returns (d: Decision)
    ensures Decides(policies, fires, hit, d)
  {
    var blocking: Option<Hit>, warnings: seq<Hit> := None, [];
    for i := 0 to |policies|
      invariant Decides(policies[..i], fires, hit, Decision(blocking, warnings))
    {
      var p := policies[i];
      assert policies[..i + 1] == policies[..i] + [p];
      NextDecides(policies[..i], p, fires, hit, Decision(blocking, warnings));
      if fires(p) {
        if p.actionMode.Warn? {
          warnings := warnings + [hit(p)];
        } else if blocking.None? {
          blocking := Some(hit(p));
        }
      }
    }
    assert policies[..|policies|] == policies;
    d := Decision(blocking, warnings);
  }

  // ---- What a decision means, without the previews ----

  /** The rows a policy looks at: those of its window, in its own environment or, if it names none, in the run's. */
  function PolicyRows(p: Policy, environment: string, usage: Usage): seq<UsageRow> {
    usage(match p.resetWindow case Daily => 1 case Weekly => 7 case Monthly => 30,
          if p.environment.None? || p.environment.value == "" then environment else p.environment.value)
  }

  function PolicySpend(p: Policy, environment: string, usage: Usage): real {
    BudgetSum(PolicyRows(p, environment, usage), p.scope, p.scopeRef)
  }

  /** The spend a policy measures has reached its threshold. */
  predicate Reached(p: Policy, environment: string, usage: Usage) {
    PolicySpend(p, environment, usage) >= p.threshold
  }

  /** A hit reports the policy, its spend, and the channel's target while the channel is active. */
  predicate Reports(h: Hit, p: Policy, environment: string, usage: Usage, channels: map<int, Channel>) {
    && h.policy == p && h.currentSpend == PolicySpend(p, environment, usage)
    && h.channelName == h.notificationChannel
    && (p.channelId in channels && channels[p.channelId].status == "active" ==>
          h.channelName == channels[p.channelId].targetRef)
    && (p.channelId !in channels || channels[p.channelId].status != "active" ==>
          h.channelName == "channel:" + IntText(p.channelId))
  }

  lemma SameRows(p: Policy, environment: string, usage: Usage)
    ensures usage(WindowDays(p.resetWindow), OrElse(p.environment, environment)) == PolicyRows(p, environment, usage)
  {
  }

  lemma PolicyPreviewExact(p: Policy, environment: string, usage: Usage)
    ensures PolicyPreview(p, environment, usage).currentSpend == PolicySpend(p, environment, usage)
    ensures PolicyPreview(p, environment, usage).wouldTrigger <==> Reached(p, environment, usage)
  {
    SameRows(p, environment, usage);
    TriggersExactly(PolicyRows(p, environment, usage), p.threshold, p.scope, p.scopeRef, p.resetWindow);
  }

  /** A policy fires exactly when the spend it measures has reached its threshold. */
  lemma FiresExactly(p: Policy, environment: string, usage: Usage, channels: map<int, Channel>)
    ensures Fires(environment, usage)(p) <==> Reached(p, environment, usage)
    ensures Reports(Hits(environment, usage, channels)(p), p, environment, usage, channels)
  {
    PolicyPreviewExact(p, environment, usage);
  }

  /** The first policy of the list that blocks: its spend has reached its threshold and it does not merely warn. */
  ghost predicate BlocksFirst(policies: seq<Policy>, environment: string, usage: Usage, i: int) {
    && 0 <= i < |policies| && Reached(policies[i], environment, usage) && !policies[i].actionMode.Warn?
    && forall j :: 0 <= j < i && Reached(policies[j], environment, usage) ==> policies[j].actionMode.Warn?
  }

  function Warns(environment: string, usage: Usage): Policy -> bool {
    (p: Policy) => Reached(p, environment, usage) && p.actionMode.Warn?
  }

  /** The decision blocks exactly when some policy that does not merely warn has its spend at its threshold, and then
      with the first such policy; it warns of exactly the warning policies that have, in order. */
  ghost predicate Enforces(policies: seq<Policy>, environment: string, usage: Usage, channels: map<int, Channel>,
                           d: Decision) {
    && (d.blocking.Some? <==> exists p <- policies :: Reached(p, environment, usage) && !p.actionMode.Warn?)
    && (d.blocking.Some? ==> exists i ::
          && BlocksFirst(policies, environment, usage, i)
          && Reports(d.blocking.value, policies[i], environment, usage, channels))
    && MapSeq(PolicyOf, d.warnings) == Filter(Warns(environment, usage), policies)
    && (forall h <- d.warnings :: Reports(h, h.policy, environment, usage, channels))
  }

  function PolicyOf(h: Hit): Policy { h.policy }

  lemma {:induction false} WarningsAre(
    policies: seq<Policy>, fires: Policy -> bool, hit: Policy -> Hit, warns: Policy -> bool)
    requires forall p <- policies :: hit(p).policy == p && (warns(p) <==> fires(p) && p.actionMode.Warn?)
    ensures MapSeq(PolicyOf, WarningHits(policies, fires, hit)) == Filter(warns, policies)
  {
    if policies != [] {
      WarningsAre(policies[..|policies| - 1], fires, hit, warns);
    }
  }

  lemma BlockingMeans(policies: seq<Policy>, environment: string, usage: Usage, channels: map<int, Channel>,
                      d: Decision)
    requires Decides(policies, Fires(environment, usage), Hits(environment, usage, channels), d)
    ensures d.blocking.Some? <==> exists p <- policies :: Reached(p, environment, usage) && !p.actionMode.Warn?
    ensures d.blocking.Some? ==> exists i ::
      && BlocksFirst(policies, environment, usage, i)
      && Reports(d.blocking.value, policies[i], environment, usage, channels)
  {
    var fires, hit := Fires(environment, usage), Hits(environment, usage, channels);
    forall p | p in policies ensures fires(p) <==> Reached(p, environment, usage) {
      FiresExactly(p, environment, usage, channels);
    }
    if d.blocking.Some? {
      var i :| FirstBlocking(policies, fires, i) && d.blocking.value == hit(policies[i]);
      FiresExactly(policies[i], environment, usage, channels);
      assert policies[i] in policies;
      assert forall j :: 0 <= j < i ==> policies[j] in policies;
      assert BlocksFirst(policies, environment, usage, i);
    }
  }

  lemma WarningsMean(policies: seq<Policy>, environment: string, usage: Usage, channels: map<int, Channel>)
    ensures var warnings := WarningHits(policies, Fires(environment, usage), Hits(environment, usage, channels));
      && MapSeq(PolicyOf, warnings) == Filter(Warns(environment, usage), policies)
      && (forall h <- warnings :: Reports(h, h.policy, environment, usage, channels))
  {
    var fires, hit, warns := Fires(environment, usage), Hits(environment, usage, channels), Warns(environment, usage);
    forall p | p in policies ensures hit(p).policy == p && (warns(p) <==> fires(p) && p.actionMode.Warn?) {
      FiresExactly(p, environment, usage, channels);
    }
    WarningsAre(policies, fires, hit, warns);
    WarningHitsMembers(policies, fires, hit);
    forall h | h in WarningHits(policies, fires, hit) ensures Reports(h, h.policy, environment, usage, channels) {
      var p :| p in policies && fires(p) && p.actionMode.Warn? && h == hit(p);
      FiresExactly(p, environment, usage, channels);
    }
  }

  lemma DecisionMeans(policies: seq<Policy>, environment: string, usage: Usage, channels: map<int, Channel>,
                      d: Decision)
    requires Decides(policies, Fires(environment, usage), Hits(environment, usage, channels), d)
    ensures Enforces(policies, environment, usage, channels, d)
  {
    BlockingMeans(policies, environment, usage, channels, d);
    WarningsMean(policies, environment, usage, channels);
  }

  /** No session means no policies to load. */
  method Evaluate(session: Option<seq<Policy>>, environment: string, usage: Usage, channels: map<int, Channel>)
    returns (d: Decision)
    ensures session.None? ==> d == Decision(None, [])
    ensures session.Some? ==> Enforces(session.value, environment, usage, channels, d)
    ensures session.Some? ==> Decides(session.value, Fires(environment, usage), Hits(environment, usage, channels), d)
  {
    if session.None? {
      d := Decision(None, []);
    } else {
      d := DecideAll(session.value, Fires(environment, usage), Hits(environment, usage, channels));
      DecisionMeans(session.value, environment, usage, channels, d);
    }
  }

  /** Policies are loaded in id order. */
  predicate Ascending(policies: seq<Policy>) {
    forall i, j :: 0 <= i < j < |policies| ==> policies[i].id < policies[j].id
  }

  lemma {:induction false} WarningHitsMembers(policies: seq<Policy>, fires: Policy -> bool, hit: Policy -> Hit)
    ensures forall p <- policies :: fires(p) && p.actionMode.Warn? ==> hit(p) in WarningHits(policies, fires, hit)
    ensures forall h <- WarningHits(policies, fires, hit) ::
      exists p <- policies :: fires(p) && p.actionMode.Warn? && h == hit(p)
  {
    if policies != [] {
      assert policies == policies[..|policies| - 1] + [policies[|policies| - 1]];
      WarningHitsMembers(policies[..|policies| - 1], fires, hit);
    }
  }

  /** A blocked run stays blocked, by the same policy or one with a smaller id, and every warning is still there
      with at least its spend. */
  ghost predicate AtLeastAsStrict(d: Decision, d': Decision) {
    && (d.blocking.Some? ==> d'.blocking.Some? && d'.blocking.value.policy.id <= d.blocking.value.policy.id)
    && (forall h <- d.warnings ::
          exists h' <- d'.warnings :: h'.policy == h.policy && h.currentSpend <= h'.currentSpend)
  }

  /** A policy that fired still fires, and its spend did not fall. */
  predicate Raised(p: Policy, fires: Policy -> bool, hit: Policy -> Hit, fires': Policy -> bool, hit': Policy -> Hit) {
    (fires(p) ==> fires'(p)) && hit(p).policy == p && hit'(p).policy == p && hit(p).currentSpend <= hit'(p).currentSpend
  }

  /** If every policy that fired still fires, the decision is at least as strict. */
  lemma DecisionMonotone(policies: seq<Policy>, fires: Policy -> bool, hit: Policy -> Hit,
                         fires': Policy -> bool, hit': Policy -> Hit, d: Decision, d': Decision)
    requires Ascending(policies)
    requires forall p :: Raised(p, fires, hit, fires', hit')
    requires Decides(policies, fires, hit, d) && Decides(policies, fires', hit', d')
    ensures AtLeastAsStrict(d, d')
  {
    WarningHitsMembers(policies, fires, hit);
    WarningHitsMembers(policies, fires', hit');
    if d.blocking.Some? {
      var i :| FirstBlocking(policies, fires, i) && d.blocking.value == hit(policies[i]);
      assert Raised(policies[i], fires, hit, fires', hit') && policies[i] in policies;
      var j :| FirstBlocking(policies, fires', j) && d'.blocking.value == hit'(policies[j]);
      assert Raised(policies[j], fires, hit, fires', hit') && j <= i;
    }
    forall h | h in d.warnings
      ensures exists h' <- d'.warnings :: h'.policy == h.policy && h.currentSpend <= h'.currentSpend
    {
      var p :| p in policies && fires(p) && p.actionMode.Warn? && h == hit(p);
      assert Raised(p, fires, hit, fires', hit');
      assert hit'(p) in d'.warnings;
    }
  }

  ghost predicate UsageGrows(usage: Usage, more: Usage) {
    forall days, env :: Grows(Cost, usage(days, env), more(days, env))
  }

  lemma TriggerMonotone(p: Policy, environment: string, usage: Usage, more: Usage)
    requires UsageGrows(usage, more)
    ensures Fires(environment, usage)(p) ==> Fires(environment, more)(p)
    ensures PolicyPreview(p, environment, usage).currentSpend <= PolicyPreview(p, environment, more).currentSpend
  {
    var days, env := WindowDays(p.resetWindow), OrElse(p.environment, environment);
    SpendMonotone(usage(days, env), more(days, env), p.threshold, p.scope, p.scopeRef, p.resetWindow);
  }

  /** Recording more usage of non-negative cost never relaxes a decision. */
  lemma EnforcementMonotone(policies: seq<Policy>, environment: string, usage: Usage, more: Usage,
                            channels: map<int, Channel>, d: Decision, d': Decision)
    requires Ascending(policies) && UsageGrows(usage, more)
    ensures
      && Decides(policies, Fires(environment, usage), Hits(environment, usage, channels), d)
      && Decides(policies, Fires(environment, more), Hits(environment, more, channels), d')
      ==> AtLeastAsStrict(d, d')
  {
    var fires, fires' := Fires(environment, usage), Fires(environment, more);
    var hit, hit' := Hits(environment, usage, channels), Hits(environment, more, channels);
    forall p ensures Raised(p, fires, hit, fires', hit') {
      TriggerMonotone(p, environment, usage, more);
    }
    if Decides(policies, fires, hit, d) && Decides(policies, fires', hit', d') {
      DecisionMonotone(policies, fires, hit, fires', hit', d, d');
    }
  }
}
