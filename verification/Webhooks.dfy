/** observability/audit.py: an append-only log with dense ids. */
module ComplianceAudit {
  import opened Common

  type Metadata = map<string, Option<string>>

  datatype Entry = Entry(
    tenantId: int, projectId: Option<int>, actorId: Option<string>, actorType: string,
    action: string, resourceType: string, resourceId: Option<int>, result: string, metadata: Metadata)

  datatype Record = Record(id: int, entry: Entry, createdAt: int)

  type Redaction = Metadata -> Metadata

  /** The log after one more entry. */
  function Appended(records: seq<Record>, entry: Entry, at: int, redact: Redaction): seq<Record> {
    records + [Record(|records| + 1, entry.(metadata := redact(entry.metadata)), at)]
  }

  predicate Dense(records: seq<Record>) {
    forall i :: 0 <= i < |records| ==> records[i].id == i + 1
  }

  class ComplianceAuditLog {
    const redact: Redaction
    var records: seq<Record>
    var nextId: int

    ghost predicate Valid()
      reads this
    {
      nextId == |records| + 1 && Dense(records)
    }

    constructor (redact: Redaction)
      ensures Valid() && records == [] && this.redact == redact
    {
      this.redact := redact;
      records, nextId := [], 1;
    }

    method Write(entry: Entry, at: int) returns (r: Record)
      requires Valid()
      modifies this
      ensures Valid() && records == Appended(old(records), entry, at, redact)
      ensures r == records[|old(records)|] && r.id == old(nextId)
    {
      r := Record(nextId, entry.(metadata := redact(entry.metadata)), at);
      nextId := nextId + 1;
      records := records + [r];
    }
  }
}

/** extensions/webhooks.py: dispatching events to subscriptions through the limiter. */
module Webhooks {
  import opened Common
  import opened RateLimiter
  import opened ComplianceAudit

  datatype Subscription = Subscription(
    id: int, tenantId: int, projectId: Option<int>, name: string, eventTypes: set<string>,
    targetUrl: string, secretRef: string, permissions: set<string>, status: string, limit: int)

  datatype Event = Event(id: Option<string>, eventType: string)

  datatype Status = Delivered | Failed

  datatype Delivery = Delivery(
    subscriptionId: int, eventId: Option<string>, status: Status, reason: Option<string>, createdAt: int)

  /** A call of the limiter: which subscription, when, and its verdict. */
  datatype RateCall = RateCall(subscriptionId: int, call: Call)

  /** The service's state, with the history of limiter calls beside it. */
  datatype Hub = Hub(
    subscriptions: seq<Subscription>, deliveries: seq<Delivery>, windows: map<int, Window>,
    audit: seq<Record>, calls: seq<RateCall>)

  predicate Matches(sub: Subscription, event: Event, tenantId: int, projectId: Option<int>) {
    && sub.status == "active" && sub.tenantId == tenantId && sub.projectId == projectId
    && event.eventType in sub.eventTypes
  }

  function Lookup(windows: map<int, Window>, id: int): Option<Window> {
    if id in windows then Some(windows[id]) else None
  }

  function AuditEntry(sub: Subscription, event: Event, reason: Option<string>): Entry {
    Entry(sub.tenantId, sub.projectId, None, "system", "webhook.dispatch", "webhook_subscription", Some(sub.id),
          if reason.None? then "allow" else "deny", map["event_id" := event.id, "reason" := reason])
  }

  function Recorded(h: Hub, sub: Subscription, event: Event, reason: Option<string>, turn: Turn,
                    redact: Redaction): Hub {
    h.(deliveries := h.deliveries
         + [Delivery(sub.id, event.id, if reason.None? then Delivered else Failed, reason, turn.recordedAt)],
       audit := Appended(h.audit, AuditEntry(sub, event, reason), turn.auditedAt, redact))
  }

  function Rated(h: Hub, sub: Subscription, now: int): Hub {
    var w := Lookup(h.windows, sub.id);
    h.(windows := h.windows[sub.id := After(w, now, sub.limit)],
       calls := h.calls + [RateCall(sub.id, Call(now, Allows(w, now, sub.limit)))])
  }

  /** What comes from outside in one subscription's turn: the clock when the limiter is asked, how the transport fails
      if it does, and the clock when the delivery is recorded and when that is audited. */
  datatype Turn = Turn(now: int, failure: Option<string>, recordedAt: int, auditedAt: int)

  /** One subscription's turn in a dispatch. */
  function Offered(h: Hub, sub: Subscription, event: Event, tenantId: int, projectId: Option<int>,
                   turn: Turn, redact: Redaction): Hub {
    if !Matches(sub, event, tenantId, projectId) then h
    else
      var allowed := Allows(Lookup(h.windows, sub.id), turn.now, sub.limit);
      Recorded(Rated(h, sub, turn.now), sub, event, if allowed then turn.failure else Some("rate_limited"),
               turn, redact)
  }

  /** A dispatch, with each subscription's turn. */
  datatype Dispatch = Dispatch(event: Event, tenantId: int, projectId: Option<int>, turns: nat -> Turn)

  /** The first k subscriptions have had their turn. */
  function DispatchedTo(h: Hub, d: Dispatch, k: nat, redact: Redaction): Hub
    requires k <= |h.subscriptions|
  {
    if k == 0 then h
    else Offered(DispatchedTo(h, d, k - 1, redact), h.subscriptions[k - 1], d.event, d.tenantId, d.projectId,
                 d.turns(k - 1), redact)
  }

  lemma DispatchedNext(h: Hub, d: Dispatch, k: nat, redact: Redaction, r: Hub)
    requires k < |h.subscriptions|
    requires r == Offered(DispatchedTo(h, d, k, redact), h.subscriptions[k], d.event, d.tenantId, d.projectId,
                          d.turns(k), redact)
    ensures r == DispatchedTo(h, d, k + 1, redact)
  {
  }

  function DeliveredCount(deliveries: seq<Delivery>): nat {
    if deliveries == [] then 0
    else
      DeliveredCount(deliveries[..|deliveries| - 1])
      + if deliveries[|deliveries| - 1].status.Delivered? then 1 else 0
  }

  class WebhookSubscriptionService {
    const auditLog: ComplianceAuditLog
    var subscriptions: seq<Subscription>
    var deliveries: seq<Delivery>
    var windows: map<int, Window>
    var nextSubscriptionId: int
    ghost var calls: seq<RateCall>

    ghost function View(): Hub
      reads this, auditLog
    {
      Hub(subscriptions, deliveries, windows, auditLog.records, calls)
    }

    ghost predicate Valid()
      reads this, auditLog
    {
      auditLog.Valid() && nextSubscriptionId == |subscriptions| && Consistent(View())
    }

    constructor (auditLog: ComplianceAuditLog)
      requires auditLog.Valid()
      ensures Valid() && this.auditLog == auditLog
      ensures View() == Hub([], [], map[], auditLog.records, [])
    {
      this.auditLog := auditLog;
      subscriptions, deliveries, windows, nextSubscriptionId := [], [], map[], 0;
      calls := [];
    }

    method Subscribe(tenantId: int, projectId: Option<int>, name: string, eventTypes: set<string>,
                     targetUrl: string, secretRef: string, permissions: set<string>)
      returns (r: Result<Subscription, string>)
      requires Valid()
      modifies this
      ensures Valid()
      ensures r.Ok? <==> "event:receive" in permissions
      ensures r.Err? ==> View() == old(View()) && r.error == "webhook_subscription_permission_required"
      ensures r.Ok? ==> View() == Subscribed(old(View()), r.value)
      ensures r.Ok? ==> r.value == Subscription(|old(subscriptions)| + 1, tenantId, projectId, name, eventTypes,
                                                targetUrl, secretRef, permissions, "active", 60)
    {
      if "event:receive" !in permissions {
        return Err("webhook_subscription_permission_required");
      }
      nextSubscriptionId := nextSubscriptionId + 1;
      var sub := Subscription(nextSubscriptionId, tenantId, projectId, name, eventTypes, targetUrl, secretRef,
                              permissions, "active", 60);
      SubscribedConsistent(View(), sub);
      subscriptions := subscriptions + [sub];
      r := Ok(sub);
    }

    method AllowRate(sub: Subscription, now: int) returns (allowed: bool)
      modifies this`windows, this`calls
      ensures View() == Rated(old(View()), sub, now)
      ensures allowed == Allows(Lookup(old(windows), sub.id), now, sub.limit)
    {
      var start, count := now, 0;
      if sub.id in windows {
        start, count := windows[sub.id].start, windows[sub.id].count;
      }
      if now - start >= MINUTE {
        start, count := now, 0;
      }
      allowed := count < sub.limit;
      windows := windows[sub.id := Window(start, if allowed then count + 1 else count)];
      calls := calls + [RateCall(sub.id, Call(now, allowed))];
    }

    method RecordDelivery(sub: Subscription, event: Event, status: Status, reason: Option<string>, turn: Turn)
      requires auditLog.Valid() && (status.Delivered? <==> reason.None?)
      modifies this`deliveries, auditLog
      ensures auditLog.Valid()
      ensures View() == Recorded(old(View()), sub, event, reason, turn, auditLog.redact)
    {
      deliveries := deliveries + [Delivery(sub.id, event.id, status, reason, turn.recordedAt)];
      var _ := auditLog.Write(AuditEntry(sub, event, reason), turn.auditedAt);
    }

    method Offer(sub: Subscription, event: Event, tenantId: int, projectId: Option<int>, turn: Turn)
      returns (delivered: nat)
      requires auditLog.Valid()
      modifies this`deliveries, this`windows, this`calls, auditLog
      ensures auditLog.Valid()
      ensures View() == Offered(old(View()), sub, event, tenantId, projectId, turn, auditLog.redact)
      ensures delivered == DeliveredCount(deliveries) - DeliveredCount(old(deliveries))
    {
      delivered := 0;
      if Matches(sub, event, tenantId, projectId) {
        var allowed := AllowRate(sub, turn.now);
        if !allowed {
          RecordDelivery(sub, event, Failed, Some("rate_limited"), turn);
        } else if turn.failure.Some? {
          RecordDelivery(sub, event, Failed, turn.failure, turn);
        } else {
          RecordDelivery(sub, event, Delivered, None, turn);
          delivered := 1;
        }
        assert deliveries[..|old(deliveries)|] == old(deliveries);
      }
    }

    /** The turn of the i-th subscription in a dispatch that found the service as h. */
    method OfferNext(ghost h: Hub, d: Dispatch, i: nat) returns (delivered: nat)
      requires auditLog.Valid() && subscriptions == h.subscriptions && i < |subscriptions|
      requires View() == DispatchedTo(h, d, i, auditLog.redact)
      modifies this`deliveries, this`windows, this`calls, auditLog
      ensures auditLog.Valid() && View() == DispatchedTo(h, d, i + 1, auditLog.redact)
      ensures delivered == DeliveredCount(deliveries) - DeliveredCount(old(deliveries))
    {
      delivered := Offer(subscriptions[i], d.event, d.tenantId, d.projectId, d.turns(i));
      DispatchedNext(h, d, i, auditLog.redact, View());
    }

    /** The loop over all subscriptions. */
    method OfferToAll(d: Dispatch) returns (delivered: nat)
      requires auditLog.Valid()
      modifies this`deliveries, this`windows, this`calls, auditLog
      ensures auditLog.Valid()
      ensures View() == DispatchedTo(old(View()), d, |subscriptions|, auditLog.redact)
      ensures delivered == DeliveredCount(deliveries) - DeliveredCount(old(deliveries))
    {
      delivered := 0;
      ghost var h := View();
      for i := 0 to |subscriptions|
        invariant auditLog.Valid() && subscriptions == h.subscriptions
        invariant View() == DispatchedTo(h, d, i, auditLog.redact)
        invariant delivered == DeliveredCount(deliveries) - DeliveredCount(h.deliveries)
      {
        var one := OfferNext(h, d, i);
        delivered := delivered + one;
      }
    }

    /** Reports how many of its recipients the event has reached. */
    method Dispatch(d: Dispatch) returns (delivered: nat, ghost to: seq<nat>)
      requires Valid()
      modifies this`deliveries, this`windows, this`calls, auditLog
      ensures Valid()
      ensures Recipients(to, subscriptions, |subscriptions|, d)
      ensures FansOut(old(View()), View(), d, auditLog.redact, to)
      ensures View() == DispatchedTo(old(View()), d, |subscriptions|, auditLog.redact)
      ensures delivered == DeliveredCount(deliveries) - DeliveredCount(old(deliveries))
    {
      DispatchConsistent(View(), d, |subscriptions|, auditLog.redact);
      to := DispatchAccounting(View(), d, auditLog.redact);
      delivered := OfferToAll(d);
    }
  }

  function Subscribed(h: Hub, sub: Subscription): Hub {
    h.(subscriptions := h.subscriptions + [sub])
  }

  // ---- What every reachable state keeps ----

  function CallsOf(calls: seq<RateCall>, id: int): seq<Call> {
    if calls == [] then []
    else
      var last := calls[|calls| - 1];
      CallsOf(calls[..|calls| - 1], id) + if last.subscriptionId == id then [last.call] else []
  }

  function TimesOf(calls: seq<RateCall>, id: int): seq<int> {
    if calls == [] then []
    else
      var last := calls[|calls| - 1];
      TimesOf(calls[..|calls| - 1], id) + if last.subscriptionId == id then [last.call.at] else []
  }

  /** Each subscription sees its own limiter and nothing else, and every limiter call has its delivery. */
  ghost predicate Consistent(h: Hub) {
    (forall id :: Isolated(h, id)) && Matched(h.deliveries, h.calls)
  }

  /** A subscription's calls and window are those of a limiter of its own; an unused id has left no trace. */
  ghost predicate Isolated(h: Hub, id: int) {
    if 1 <= id <= |h.subscriptions| then
      var limit := h.subscriptions[id - 1].limit;
      h.subscriptions[id - 1].id == id && Own(h.calls, Lookup(h.windows, id), limit, id)
    else
      CallsOf(h.calls, id) == [] && TimesOf(h.calls, id) == [] && id !in h.windows
  }

  /** The calls under an id and its window are those of one limiter. */
  ghost predicate Own(calls: seq<RateCall>, w: Option<Window>, limit: int, id: int) {
    CallsOf(calls, id) == Log(TimesOf(calls, id), limit) && w == WindowAfter(TimesOf(calls, id), limit)
  }

  lemma OwnNext(calls: seq<RateCall>, w: Option<Window>, limit: int, id: int, now: int)
    requires Own(calls, w, limit, id)
    ensures Own(calls + [RateCall(id, Call(now, Allows(w, now, limit)))], Some(After(w, now, limit)), limit, id)
  {
    CallsStep(calls, RateCall(id, Call(now, Allows(w, now, limit))), id);
    LogStep(TimesOf(calls, id), now, limit);
  }

  lemma OwnKept(calls: seq<RateCall>, w: Option<Window>, limit: int, id: int, c: RateCall)
    requires Own(calls, w, limit, id) && c.subscriptionId != id
    ensures Own(calls + [c], w, limit, id)
  {
    CallsStep(calls, c, id);
  }

  ghost predicate Matched(deliveries: seq<Delivery>, calls: seq<RateCall>) {
    if deliveries == [] || calls == [] then deliveries == [] && calls == []
    else
      && Matched(deliveries[..|deliveries| - 1], calls[..|calls| - 1])
      && Explained(deliveries[|deliveries| - 1], calls[|calls| - 1])
  }

  predicate Explained(d: Delivery, c: RateCall) {
    && d.subscriptionId == c.subscriptionId
    && (d.status.Delivered? ==> c.call.allowed)
    && (!c.call.allowed ==> d.reason == Some("rate_limited"))
  }

  lemma CallsStep(calls: seq<RateCall>, c: RateCall, id: int)
    ensures CallsOf(calls + [c], id)
         == if c.subscriptionId == id then CallsOf(calls, id) + [c.call] else CallsOf(calls, id)
    ensures TimesOf(calls + [c], id)
         == if c.subscriptionId == id then TimesOf(calls, id) + [c.call.at] else TimesOf(calls, id)
  {
    assert (calls + [c])[..|calls|] == calls;
  }

  lemma RatedIsolated(h: Hub, i: nat, now: int, id: int)
    requires i < |h.subscriptions| && h.subscriptions[i].id == i + 1
    requires Isolated(h, i + 1) && Isolated(h, id)
    ensures Isolated(Rated(h, h.subscriptions[i], now), id)
  {
    var sub, h' := h.subscriptions[i], Rated(h, h.subscriptions[i], now);
    var w := Lookup(h.windows, sub.id);
    var c := RateCall(sub.id, Call(now, Allows(w, now, sub.limit)));
    assert h'.calls == h.calls + [c] && h'.subscriptions == h.subscriptions;
    if id == sub.id {
      OwnNext(h.calls, w, sub.limit, id, now);
      assert Lookup(h'.windows, id) == Some(After(w, now, sub.limit));
    } else if 1 <= id <= |h.subscriptions| {
      OwnKept(h.calls, Lookup(h.windows, id), h.subscriptions[id - 1].limit, id, c);
      assert Lookup(h'.windows, id) == Lookup(h.windows, id);
    } else {
      CallsStep(h.calls, c, id);
    }
  }

  lemma OfferedConsistent(h: Hub, i: nat, event: Event, tenantId: int, projectId: Option<int>, turn: Turn,
                          redact: Redaction, after: Hub)
    requires Consistent(h) && i < |h.subscriptions|
    requires after == Offered(h, h.subscriptions[i], event, tenantId, projectId, turn, redact)
    ensures Consistent(after) && after.subscriptions == h.subscriptions
  {
    var sub := h.subscriptions[i];
    if Matches(sub, event, tenantId, projectId) {
      var rated := Rated(h, sub, turn.now);
      assert Isolated(h, i + 1);
      forall id ensures Isolated(after, id) {
        RatedIsolated(h, i, turn.now, id);
        assert Isolated(rated, id);
      }
      assert after.deliveries[..|h.deliveries|] == h.deliveries && after.calls[..|h.calls|] == h.calls;
    }
  }

  lemma {:induction false} DispatchConsistent(h: Hub, d: Dispatch, k: nat, redact: Redaction)
    requires Consistent(h) && k <= |h.subscriptions|
    ensures Consistent(DispatchedTo(h, d, k, redact))
    ensures DispatchedTo(h, d, k, redact).subscriptions == h.subscriptions
  {
    if k > 0 {
      DispatchConsistent(h, d, k - 1, redact);
      OfferedConsistent(DispatchedTo(h, d, k - 1, redact), k - 1, d.event, d.tenantId, d.projectId,
                        d.turns(k - 1), redact, DispatchedTo(h, d, k, redact));
    }
  }

  lemma SubscribedConsistent(h: Hub, sub: Subscription)
    requires Consistent(h) && sub.id == |h.subscriptions| + 1
    ensures Consistent(Subscribed(h, sub))
  {
    forall id ensures Isolated(Subscribed(h, sub), id) {
      assert Isolated(h, id);
    }
  }

  // ---- Whole runs ----

  datatype Op = Subscribing(sub: Subscription) | Dispatching(d: Dispatch)

  function Step(h: Hub, op: Op, redact: Redaction): Hub {
    match op
    case Subscribing(sub) => Subscribed(h, sub.(id := |h.subscriptions| + 1))
    case Dispatching(d) => DispatchedTo(h, d, |h.subscriptions|, redact)
  }

  function Run(h: Hub, ops: seq<Op>, redact: Redaction): Hub {
    if ops == [] then h else Step(Run(h, ops[..|ops| - 1], redact), ops[|ops| - 1], redact)
  }

  lemma {:induction false} RunConsistent(h: Hub, ops: seq<Op>, redact: Redaction)
    requires Consistent(h)
    ensures Consistent(Run(h, ops, redact))
  {
    if ops != [] {
      var before := Run(h, ops[..|ops| - 1], redact);
      RunConsistent(h, ops[..|ops| - 1], redact);
      match ops[|ops| - 1]
      case Subscribing(sub) => SubscribedConsistent(before, sub.(id := |before.subscriptions| + 1));
      case Dispatching(d) => DispatchConsistent(before, d, |before.subscriptions|, redact);
    }
  }

  /** Deliveries made to a subscription whose limiter calls were in [from, to). */
  function DeliveredByCall(deliveries: seq<Delivery>, calls: seq<RateCall>, id: int, from: int, to: int): nat
    requires |deliveries| == |calls|
  {
    if calls == [] then 0
    else
      var n, d := |calls| - 1, deliveries[|calls| - 1];
      DeliveredByCall(deliveries[..n], calls[..n], id, from, to)
      + if d.subscriptionId == id && d.status.Delivered? && from <= calls[n].call.at < to then 1 else 0
  }

  /** Deliveries recorded for a subscription in [from, to). */
  function DeliveredIn(deliveries: seq<Delivery>, id: int, from: int, to: int): nat {
    if deliveries == [] then 0
    else
      var n, d := |deliveries| - 1, deliveries[|deliveries| - 1];
      DeliveredIn(deliveries[..n], id, from, to)
      + if d.subscriptionId == id && d.status.Delivered? && from <= d.createdAt < to then 1 else 0
  }

  /** When the attempts on a subscription were recorded. */
  function StampsOf(deliveries: seq<Delivery>, id: int): seq<int> {
    if deliveries == [] then []
    else
      var last := deliveries[|deliveries| - 1];
      StampsOf(deliveries[..|deliveries| - 1], id) + if last.subscriptionId == id then [last.createdAt] else []
  }

  lemma {:induction false} MatchedLength(deliveries: seq<Delivery>, calls: seq<RateCall>)
    requires Matched(deliveries, calls)
    ensures |deliveries| == |calls|
  {
    if deliveries != [] && calls != [] {
      MatchedLength(deliveries[..|deliveries| - 1], calls[..|calls| - 1]);
    }
  }

  lemma {:induction false} DeliveredAtMostAllowed(deliveries: seq<Delivery>, calls: seq<RateCall>, id: int, from: int,
                                                  to: int)
    requires Matched(deliveries, calls) && |deliveries| == |calls|
    ensures DeliveredByCall(deliveries, calls, id, from, to) <= AllowedIn(CallsOf(calls, id), from, to)
  {
    if calls != [] {
      var n := |calls| - 1;
      DeliveredAtMostAllowed(deliveries[..n], calls[..n], id, from, to);
      assert calls == calls[..n] + [calls[n]];
      CallsStep(calls[..n], calls[n], id);
      AllowedStep(CallsOf(calls[..n], id), calls[n].call, from, to);
    }
  }

  lemma StampsStep(deliveries: seq<Delivery>, d: Delivery, id: int)
    ensures StampsOf(deliveries + [d], id)
         == if d.subscriptionId == id then StampsOf(deliveries, id) + [d.createdAt] else StampsOf(deliveries, id)
  {
    assert (deliveries + [d])[..|deliveries|] == deliveries;
  }

  lemma LandedStep(log: seq<Call>, stamps: seq<int>, c: Call, stamp: int, from: int, to: int)
    requires |log| == |stamps|
    ensures LandedIn(log + [c], stamps + [stamp], from, to)
         == LandedIn(log, stamps, from, to) + if c.allowed && from <= stamp < to then 1 else 0
  {
    assert (log + [c])[..|log|] == log && (stamps + [stamp])[..|log|] == stamps;
  }

  lemma DeliveredStep(deliveries: seq<Delivery>, d: Delivery, id: int, from: int, to: int)
    ensures DeliveredIn(deliveries + [d], id, from, to) == DeliveredIn(deliveries, id, from, to)
         + if d.subscriptionId == id && d.status.Delivered? && from <= d.createdAt < to then 1 else 0
  {
    assert (deliveries + [d])[..|deliveries|] == deliveries;
  }

  /** Deliveries recorded in an interval are allowed calls that landed in it. */
  ghost predicate AllLanded(deliveries: seq<Delivery>, calls: seq<RateCall>, id: int, from: int, to: int) {
    && |StampsOf(deliveries, id)| == |CallsOf(calls, id)|
    && DeliveredIn(deliveries, id, from, to) <= LandedIn(CallsOf(calls, id), StampsOf(deliveries, id), from, to)
  }

  lemma AllLandedNext(deliveries: seq<Delivery>, calls: seq<RateCall>, d: Delivery, c: RateCall, id: int, from: int,
                      to: int)
    requires AllLanded(deliveries, calls, id, from, to) && Explained(d, c)
    ensures AllLanded(deliveries + [d], calls + [c], id, from, to)
  {
    CallsStep(calls, c, id);
    StampsStep(deliveries, d, id);
    DeliveredStep(deliveries, d, id, from, to);
    if c.subscriptionId == id {
      LandedStep(CallsOf(calls, id), StampsOf(deliveries, id), c.call, d.createdAt, from, to);
    }
  }

  lemma {:induction false} DeliveredAtMostLanded(deliveries: seq<Delivery>, calls: seq<RateCall>, id: int, from: int,
                                                 to: int)
    requires Matched(deliveries, calls) && |deliveries| == |calls|
    ensures AllLanded(deliveries, calls, id, from, to)
  {
    if calls != [] {
      var n := |calls| - 1;
      DeliveredAtMostLanded(deliveries[..n], calls[..n], id, from, to);
      AllLandedNext(deliveries[..n], calls[..n], deliveries[n], calls[n], id, from, to);
      assert calls == calls[..n] + [calls[n]] && deliveries == deliveries[..n] + [deliveries[n]];
    }
  }

  /** In every run of the service, each subscription receives at most 2L deliveries in any 60 seconds by the time they
      are recorded, however the dispatches to other subscriptions interleave, provided the clock does not run
      backwards between its limiter calls and its records. */
  lemma RunMinuteBound(h: Hub, ops: seq<Op>, redact: Redaction, i: nat, from: int)
    requires Consistent(h) && i < |Run(h, ops, redact).subscriptions|
    requires InTurn(CallsOf(Run(h, ops, redact).calls, i + 1), StampsOf(Run(h, ops, redact).deliveries, i + 1))
    ensures DeliveredIn(Run(h, ops, redact).deliveries, i + 1, from, from + MINUTE)
         <= 2 * Quota(Run(h, ops, redact).subscriptions[i].limit)
  {
    var r := Run(h, ops, redact);
    RunConsistent(h, ops, redact);
    assert Isolated(r, i + 1);
    MatchedLength(r.deliveries, r.calls);
    DeliveredAtMostLanded(r.deliveries, r.calls, i + 1, from, from + MINUTE);
    LandedMinuteBound(TimesOf(r.calls, i + 1), StampsOf(r.deliveries, i + 1), r.subscriptions[i].limit, from);
  }

  /** Counted by the time of its limiter call instead, at most 2L - 1 deliveries fall in any 60 seconds. */
  lemma RunCallBound(h: Hub, ops: seq<Op>, redact: Redaction, i: nat, from: int)
    requires Consistent(h) && i < |Run(h, ops, redact).subscriptions|
    requires Chronological(TimesOf(Run(h, ops, redact).calls, i + 1))
    ensures |Run(h, ops, redact).deliveries| == |Run(h, ops, redact).calls|
    ensures DeliveredByCall(Run(h, ops, redact).deliveries, Run(h, ops, redact).calls, i + 1, from, from + MINUTE)
         <= Burst(Run(h, ops, redact).subscriptions[i].limit)
  {
    var r := Run(h, ops, redact);
    RunConsistent(h, ops, redact);
    assert Isolated(r, i + 1);
    MatchedLength(r.deliveries, r.calls);
    DeliveredAtMostAllowed(r.deliveries, r.calls, i + 1, from, from + MINUTE);
    MinuteBound(TimesOf(r.calls, i + 1), r.subscriptions[i].limit, from);
  }

  // ---- The bound on recorded deliveries is attained ----

  /** The worst case of the limiter, with the first post taking until the first window is about to close. */
  function WorstTurn(limit: nat, k: nat): Turn {
    if k == 0 then Turn(0, None, MINUTE - 1, MINUTE - 1)
    else if k < limit then Turn(MINUTE - 1, None, MINUTE - 1, MINUTE - 1)
    else Turn(MINUTE, None, MINUTE, MINUTE)
  }

  function WorstSubscription(limit: nat): Subscription {
    Subscription(1, 1, None, "", {""}, "", "", {"event:receive"}, "active", limit)
  }

  function WorstDispatch(limit: nat, k: nat): Dispatch {
    Dispatch(Event(None, ""), 1, None, (_: nat) => WorstTurn(limit, k))
  }

  /** One subscription, then k dispatches to it. */
  function WorstOps(limit: nat, k: nat): seq<Op> {
    [Subscribing(WorstSubscription(limit))] + seq(k, i requires 0 <= i < k => Dispatching(WorstDispatch(limit, i)))
  }

  function WorstHub(limit: nat, k: nat, redact: Redaction): Hub {
    Run(Hub([], [], map[], [], []), WorstOps(limit, k), redact)
  }

  lemma WorstNext(limit: nat, k: nat, redact: Redaction)
    ensures var h := WorstHub(limit, k, redact);
      WorstHub(limit, k + 1, redact) == DispatchedTo(h, WorstDispatch(limit, k), |h.subscriptions|, redact)
  {
    assert WorstOps(limit, k + 1)[..k + 1] == WorstOps(limit, k);
    assert WorstOps(limit, k + 1)[k + 1] == Dispatching(WorstDispatch(limit, k));
  }

  /** The clock readings of the first k turns. */
  predicate WorstLog(log: seq<Call>, stamps: seq<int>, limit: nat, k: nat) {
    && |log| == |stamps| == k
    && (forall i :: 0 <= i < k ==> log[i].at == WorstTurn(limit, i).now && stamps[i] == WorstTurn(limit, i).recordedAt)
  }

  /** What k of those dispatches have left behind. */
  ghost predicate WorstSoFar(h: Hub, limit: nat, k: nat) {
    && h.subscriptions == [WorstSubscription(limit)]
    && Lookup(h.windows, 1) == (if k == 0 then None else Some(WorstWindow(limit, k)))
    && WorstLog(CallsOf(h.calls, 1), StampsOf(h.deliveries, 1), limit, k)
    && DeliveredIn(h.deliveries, 1, MINUTE - 1, 2 * MINUTE - 1) == k
  }

  lemma WorstStart(limit: nat, redact: Redaction)
    ensures WorstSoFar(WorstHub(limit, 0, redact), limit, 0)
  {
    var ops, empty := WorstOps(limit, 0), Hub([], [], map[], [], []);
    assert ops == [Subscribing(WorstSubscription(limit))] && ops[..0] == [];
    assert Run(empty, ops[..0], redact) == empty;
    assert WorstHub(limit, 0, redact) == Step(empty, ops[0], redact);
  }

  lemma WorstGoesThrough(limit: nat, k: nat)
    requires k < 2 * limit
    ensures var w, now := (if k == 0 then None else Some(WorstWindow(limit, k))), WorstTurn(limit, k).now;
      Allows(w, now, limit) && After(w, now, limit) == WorstWindow(limit, k + 1)
  {
    if k > 0 {
      WorstStep(limit, k);
    }
  }

  /** One more dispatch: it goes through and is recorded. */
  lemma WorstOffered(h: Hub, limit: nat, k: nat, redact: Redaction)
    requires k < 2 * limit && h.subscriptions == [WorstSubscription(limit)]
    requires Lookup(h.windows, 1) == if k == 0 then None else Some(WorstWindow(limit, k))
    ensures var r, turn := DispatchedTo(h, WorstDispatch(limit, k), 1, redact), WorstTurn(limit, k);
      && r.subscriptions == h.subscriptions && Lookup(r.windows, 1) == Some(WorstWindow(limit, k + 1))
      && r.deliveries == h.deliveries + [Delivery(1, None, Delivered, None, turn.recordedAt)]
      && r.calls == h.calls + [RateCall(1, Call(turn.now, true))]
  {
    var d := WorstDispatch(limit, k);
    WorstGoesThrough(limit, k);
    assert DispatchedTo(h, d, 0, redact) == h && d.turns(0) == WorstTurn(limit, k);
    assert DispatchedTo(h, d, 1, redact) == Offered(h, WorstSubscription(limit), d.event, 1, None, d.turns(0), redact);
  }

  lemma WorstLogNext(log: seq<Call>, stamps: seq<int>, limit: nat, k: nat)
    requires WorstLog(log, stamps, limit, k)
    ensures var turn := WorstTurn(limit, k);
      WorstLog(log + [Call(turn.now, true)], stamps + [turn.recordedAt], limit, k + 1)
  {
  }

  lemma WorstSoFarNext(h: Hub, r: Hub, limit: nat, k: nat, redact: Redaction)
    requires k < 2 * limit && WorstSoFar(h, limit, k)
    requires r == DispatchedTo(h, WorstDispatch(limit, k), |h.subscriptions|, redact)
    ensures WorstSoFar(r, limit, k + 1)
  {
    var turn := WorstTurn(limit, k);
    var delivery, call := Delivery(1, None, Delivered, None, turn.recordedAt), RateCall(1, Call(turn.now, true));
    WorstOffered(h, limit, k, redact);
    CallsStep(h.calls, call, 1);
    StampsStep(h.deliveries, delivery, 1);
    DeliveredStep(h.deliveries, delivery, 1, MINUTE - 1, 2 * MINUTE - 1);
    WorstLogNext(CallsOf(h.calls, 1), StampsOf(h.deliveries, 1), limit, k);
  }

  lemma WorstInTurn(log: seq<Call>, stamps: seq<int>, limit: nat, k: nat)
    requires WorstLog(log, stamps, limit, k)
    ensures InTurn(log, stamps)
  {
  }

  lemma {:induction false} WorstRun(limit: nat, k: nat, redact: Redaction)
    requires k <= 2 * limit
    ensures WorstSoFar(WorstHub(limit, k, redact), limit, k)
  {
    if k == 0 {
      WorstStart(limit, redact);
    } else {
      var before, after := WorstHub(limit, k - 1, redact), WorstHub(limit, k, redact);
      WorstRun(limit, k - 1, redact);
      WorstNext(limit, k - 1, redact);
      WorstSoFarNext(before, after, limit, k - 1, redact);
    }
  }

  /** For every positive limit some run of the service, with a clock that never runs backwards, records 2L deliveries
      to one subscription within 60 seconds. So "at most L a minute" holds of recorded deliveries for no positive
      limit. */
  lemma MinuteBoundAttained(limit: nat, redact: Redaction)
    ensures var h := WorstHub(limit, 2 * limit, redact);
      && h.subscriptions == [WorstSubscription(limit)]
      && InTurn(CallsOf(h.calls, 1), StampsOf(h.deliveries, 1))
      && DeliveredIn(h.deliveries, 1, MINUTE - 1, 2 * MINUTE - 1) == 2 * Quota(limit)
  {
    WorstRun(limit, 2 * limit, redact);
    var h := WorstHub(limit, 2 * limit, redact);
    WorstInTurn(CallsOf(h.calls, 1), StampsOf(h.deliveries, 1), limit, 2 * limit);
  }

  // ---- Accounting of one dispatch ----

  /** The call opens a new window and the limit is positive, or the open window has not reached it. */
  predicate InQuota(w: Option<Window>, now: int, limit: int) {
    if w.None? || now >= w.value.start + 60000000 then limit > 0 else w.value.count < limit
  }

  /** A subscriber's delivery and its audit record: refused by the limiter, failed in transport, or gone through. */
  predicate Served(x: Delivery, y: Record, sub: Subscription, w: Option<Window>, event: Event, turn: Turn,
                   redact: Redaction) {
    var reason := if InQuota(w, turn.now, sub.limit) then turn.failure else Some("rate_limited");
    && x.subscriptionId == sub.id && x.eventId == event.id && x.createdAt == turn.recordedAt
    && x.reason == reason && (x.status.Delivered? <==> reason.None?)
    && y.entry == Entry(sub.tenantId, sub.projectId, None, "system", "webhook.dispatch", "webhook_subscription",
                        Some(sub.id), if x.status.Delivered? then "allow" else "deny",
                        redact(map["event_id" := event.id, "reason" := reason]))
    && y.createdAt == turn.auditedAt
  }

  /** The positions, in order, of the active subscriptions among the first k that belong to the dispatch's tenant and
      project and list its event type. */
  ghost predicate Recipients(to: seq<nat>, subs: seq<Subscription>, k: nat, d: Dispatch)
    requires k <= |subs|
  {
    && (forall i, j :: 0 <= i < j < |to| ==> to[i] < to[j])
    && (forall j :: 0 <= j < |to| ==> to[j] < k)
    && (forall i: nat :: i < k ==>
          (i in to <==>
             && subs[i].status == "active" && subs[i].tenantId == d.tenantId && subs[i].projectId == d.projectId
             && d.event.eventType in subs[i].eventTypes))
  }

  /** What r holds on top of h: one delivery and one audit record for each recipient, in order. */
  ghost predicate FansOut(h: Hub, r: Hub, d: Dispatch, redact: Redaction, to: seq<nat>) {
    && h.deliveries <= r.deliveries && |r.deliveries| == |h.deliveries| + |to|
    && h.audit <= r.audit && |r.audit| == |h.audit| + |to|
    && forall j :: 0 <= j < |to| ==>
         && to[j] < |h.subscriptions|
         && Served(r.deliveries[|h.deliveries| + j], r.audit[|h.audit| + j], h.subscriptions[to[j]],
                   Lookup(h.windows, h.subscriptions[to[j]].id), d.event, d.turns(to[j]), redact)
  }

  lemma OfferedServes(h: Hub, sub: Subscription, d: Dispatch, turn: Turn, redact: Redaction)
    ensures var r := Offered(h, sub, d.event, d.tenantId, d.projectId, turn, redact);
      if Matches(sub, d.event, d.tenantId, d.projectId) then
        && r.deliveries == h.deliveries + [r.deliveries[|h.deliveries|]] && r.audit == h.audit + [r.audit[|h.audit|]]
        && Served(r.deliveries[|h.deliveries|], r.audit[|h.audit|], sub, Lookup(h.windows, sub.id), d.event, turn,
                  redact)
        && sub.id in r.windows && r.windows == h.windows[sub.id := r.windows[sub.id]]
      else r == h
  {
  }

  lemma RecipientsNext(to: seq<nat>, subs: seq<Subscription>, k: nat, d: Dispatch)
    requires k < |subs| && Recipients(to, subs, k, d)
    ensures Recipients(if Matches(subs[k], d.event, d.tenantId, d.projectId) then to + [k] else to, subs, k + 1, d)
  {
    var next := if Matches(subs[k], d.event, d.tenantId, d.projectId) then to + [k] else to;
    assert forall i :: i in next <==> i in to || (i == k && Matches(subs[k], d.event, d.tenantId, d.projectId));
    assert k !in to;
  }

  lemma FansOutNext(h: Hub, before: Hub, r: Hub, d: Dispatch, redact: Redaction, to: seq<nat>, k: nat)
    requires FansOut(h, before, d, redact, to) && k < |h.subscriptions|
    requires |r.deliveries| == |before.deliveries| + 1 && before.deliveries <= r.deliveries
    requires |r.audit| == |before.audit| + 1 && before.audit <= r.audit
    requires Served(r.deliveries[|before.deliveries|], r.audit[|before.audit|], h.subscriptions[k],
                    Lookup(h.windows, h.subscriptions[k].id), d.event, d.turns(k), redact)
    ensures FansOut(h, r, d, redact, to + [k])
  {
  }

  lemma WindowsKeptNext(h: Hub, before: Hub, r: Hub, k: nat)
    requires k < |h.subscriptions| && Numbered(h.subscriptions) && WindowsKept(h, before, k)
    requires r.windows == before.windows
          || (k + 1 in r.windows && r.windows == before.windows[k + 1 := r.windows[k + 1]])
    ensures WindowsKept(h, r, k + 1)
  {
  }

  /** The windows of the subscriptions from position k on are those of h. */
  ghost predicate WindowsKept(h: Hub, r: Hub, k: nat) {
    forall i :: k <= i < |h.subscriptions| ==>
      Lookup(r.windows, h.subscriptions[i].id) == Lookup(h.windows, h.subscriptions[i].id)
  }

  predicate Numbered(subs: seq<Subscription>) {
    forall i :: 0 <= i < |subs| ==> subs[i].id == i + 1
  }

  /** The first k subscriptions have been served. */
  ghost predicate ServedTo(h: Hub, r: Hub, d: Dispatch, k: nat, redact: Redaction, to: seq<nat>)
    requires k <= |h.subscriptions|
  {
    Recipients(to, h.subscriptions, k, d) && FansOut(h, r, d, redact, to) && WindowsKept(h, r, k)
  }

  lemma TurnServes(h: Hub, before: Hub, r: Hub, d: Dispatch, k: nat, redact: Redaction, to: seq<nat>)
    returns (next: seq<nat>)
    requires k < |h.subscriptions| && Numbered(h.subscriptions) && ServedTo(h, before, d, k, redact, to)
    requires r == Offered(before, h.subscriptions[k], d.event, d.tenantId, d.projectId, d.turns(k), redact)
    ensures ServedTo(h, r, d, k + 1, redact, next)
  {
    var sub := h.subscriptions[k];
    OfferedServes(before, sub, d, d.turns(k), redact);
    RecipientsNext(to, h.subscriptions, k, d);
    WindowsKeptNext(h, before, r, k);
    next := to;
    if Matches(sub, d.event, d.tenantId, d.projectId) {
      FansOutNext(h, before, r, d, redact, to, k);
      next := to + [k];
    }
  }

  lemma NoneServed(h: Hub, d: Dispatch, redact: Redaction)
    ensures ServedTo(h, h, d, 0, redact, [])
  {
  }

  lemma {:induction false} DispatchServes(h: Hub, d: Dispatch, k: nat, redact: Redaction) returns (to: seq<nat>)
    requires k <= |h.subscriptions| && Numbered(h.subscriptions)
    ensures ServedTo(h, DispatchedTo(h, d, k, redact), d, k, redact, to)
  {
    if k == 0 {
      NoneServed(h, d, redact);
      to := [];
    } else {
      to := DispatchServes(h, d, k - 1, redact);
      to := TurnServes(h, DispatchedTo(h, d, k - 1, redact), DispatchedTo(h, d, k, redact), d, k - 1, redact, to);
    }
  }

  lemma ConsistentNumbered(h: Hub)
    requires Consistent(h)
    ensures Numbered(h.subscriptions)
  {
    forall i | 0 <= i < |h.subscriptions| ensures h.subscriptions[i].id == i + 1 {
      assert Isolated(h, i + 1);
    }
  }

  /** A dispatch appends one delivery and one audit record for each active subscription of its tenant and project that
      lists the event type, in subscription order, and none for any other; nothing older changes. */
  lemma DispatchAccounting(h: Hub, d: Dispatch, redact: Redaction) returns (to: seq<nat>)
    requires Consistent(h)
    ensures Recipients(to, h.subscriptions, |h.subscriptions|, d)
    ensures FansOut(h, DispatchedTo(h, d, |h.subscriptions|, redact), d, redact, to)
  {
    ConsistentNumbered(h);
    to := DispatchServes(h, d, |h.subscriptions|, redact);
  }

  /** The delivery went to an active subscription of the dispatch's tenant and project, for an event it listens to. */
  predicate Addressed(subs: seq<Subscription>, x: Delivery, d: Dispatch) {
    && 1 <= x.subscriptionId <= |subs| && x.eventId == d.event.id
    && var sub := subs[x.subscriptionId - 1];
       && sub.status == "active" && sub.tenantId == d.tenantId && sub.projectId == d.projectId
       && d.event.eventType in sub.eventTypes
  }

  lemma FanOutAddresses(h: Hub, r: Hub, d: Dispatch, redact: Redaction, to: seq<nat>, j: nat)
    requires Numbered(h.subscriptions) && Recipients(to, h.subscriptions, |h.subscriptions|, d)
    requires FansOut(h, r, d, redact, to) && |h.deliveries| <= j < |r.deliveries|
    ensures Addressed(h.subscriptions, r.deliveries[j], d)
  {
    var i := j - |h.deliveries|;
    assert to[i] in to;
    assert r.deliveries[|h.deliveries| + i] == r.deliveries[j];
  }

  lemma DispatchAddresses(h: Hub, r: Hub, d: Dispatch, redact: Redaction, j: nat)
    requires Consistent(h) && r == DispatchedTo(h, d, |h.subscriptions|, redact)
    ensures h.deliveries <= r.deliveries && r.subscriptions == h.subscriptions
    ensures |h.deliveries| <= j < |r.deliveries| ==> Addressed(r.subscriptions, r.deliveries[j], d)
  {
    var to := DispatchAccounting(h, d, redact);
    DispatchConsistent(h, d, |h.subscriptions|, redact);
    ConsistentNumbered(h);
    if |h.deliveries| <= j < |r.deliveries| {
      FanOutAddresses(h, r, d, redact, to, j);
    }
  }

  /** In every run, each delivery comes from a dispatch of its subscription's own tenant and project. */
  lemma {:induction false} RunIsolation(h: Hub, ops: seq<Op>, redact: Redaction, j: nat) returns (n: nat)
    requires Consistent(h) && |h.deliveries| <= j < |Run(h, ops, redact).deliveries|
    ensures n < |ops| && ops[n].Dispatching?
    ensures Addressed(Run(h, ops, redact).subscriptions, Run(h, ops, redact).deliveries[j], ops[n].d)
  {
    var last := |ops| - 1;
    var before := Run(h, ops[..last], redact);
    RunConsistent(h, ops[..last], redact);
    if ops[last].Dispatching? {
      DispatchAddresses(before, Run(h, ops, redact), ops[last].d, redact, j);
    }
    if j < |before.deliveries| {
      n := RunIsolation(h, ops[..last], redact, j);
    } else {
      n := last;
    }
  }
}
