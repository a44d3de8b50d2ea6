/** hitl/service.py: what the two human-task services have in common. */
module ApprovalLedger {
  import opened Common

  datatype Status = Pending | Approved | Rejected

  datatype Value = Plain(text: string) | Decision(fields: map<string, string>)
  type Payload = map<string, Value>

  datatype AuditRecord = AuditRecord(
    tenantId: int, projectId: Option<int>, actor: Option<string>, actorType: string, taskId: int,
    action: Action, result: string)

  datatype Action = Creating | Deciding(approved: bool)

  datatype Error = UnknownTask | SelfReview | NotPending

  /** What an approval is about, who may give it and until when. */
  datatype Subject = Subject(
    runId: Option<int>, attemptId: Option<int>, taskId: Option<int>, assigneeRole: Option<string>,
    expiresAt: Option<int>)

  /** A task as both services show it. */
  datatype Item = Item(
    tenantId: int, projectId: Option<int>, subject: Subject, requestedBy: Option<string>, status: Status)

  /** items[i] holds id i + 1. */
  datatype Ledger = Ledger(items: seq<Item>, audit: seq<AuditRecord>)

  datatype Request = Request(
    tenantId: int, projectId: Option<int>, subject: Subject, requestedBy: Option<string>, payload: Payload)

  function CreateRecord(r: Request, id: int): AuditRecord {
    AuditRecord(r.tenantId, r.projectId, r.requestedBy,
                if r.requestedBy.Some? && r.requestedBy.value != "" then "user" else "system", id, Creating, "allow")
  }

  function DecideRecord(item: Item, id: int, actor: string, approved: bool): AuditRecord {
    AuditRecord(item.tenantId, item.projectId, Some(actor), "user", id, Deciding(approved),
                if approved then "approved" else "rejected")
  }

  function Outcome(approved: bool): Status {
    if approved then Approved else Rejected
  }

  function Created(l: Ledger, r: Request): Ledger {
    Ledger(l.items + [Item(r.tenantId, r.projectId, r.subject, r.requestedBy, Pending)],
           l.audit + [CreateRecord(r, |l.items| + 1)])
  }

  /** Self-review is refused before the status is looked at. */
  function Refusal(l: Ledger, id: int, actor: string): Option<Error> {
    if !(1 <= id <= |l.items|) then Some(UnknownTask)
    else if l.items[id - 1].requestedBy == Some(actor) then Some(SelfReview)
    else if !l.items[id - 1].status.Pending? then Some(NotPending)
    else None
  }

  function Decided(l: Ledger, id: int, actor: string, approved: bool): Ledger {
    if Refusal(l, id, actor).Some? then l
    else
      var item := l.items[id - 1];
      Ledger(l.items[id - 1 := item.(status := Outcome(approved))], l.audit + [DecideRecord(item, id, actor, approved)])
  }

  /** Nobody decides an unknown task, their own, or one that is not pending; anyone else decides it once,
      its status becomes that decision, and one record says who decided it and how. */
  ghost predicate Rules(l: Ledger, id: int, actor: string, approved: bool, l': Ledger, error: Option<Error>) {
    if !(1 <= id <= |l.items|) then error == Some(UnknownTask) && l' == l
    else
      var item := l.items[id - 1];
      && (error == Some(SelfReview) <==> item.requestedBy == Some(actor))
      && (error == Some(NotPending) <==> item.requestedBy != Some(actor) && item.status != Pending)
      && (error.None? <==> item.requestedBy != Some(actor) && item.status == Pending)
      && (error.Some? ==> l' == l)
      && (error.None? ==>
            && l'.items == l.items[id - 1 := item.(status := if approved then Approved else Rejected)]
            && l'.audit == l.audit + [AuditRecord(item.tenantId, item.projectId, Some(actor), "user", id,
                                                  Deciding(approved), if approved then "approved" else "rejected")])
  }

  lemma DecideExact(l: Ledger, id: int, actor: string, approved: bool)
    ensures Rules(l, id, actor, approved, Decided(l, id, actor, approved), Refusal(l, id, actor))
  {
  }

  /** The new task waits, and one record says who asked for it, or that the system did. */
  ghost predicate Opens(l: Ledger, r: Request, l': Ledger) {
    && l'.items == l.items + [Item(r.tenantId, r.projectId, r.subject, r.requestedBy, Pending)]
    && |l'.audit| == |l.audit| + 1 && l.audit <= l'.audit
    && var e := l'.audit[|l.audit|];
    && e.tenantId == r.tenantId && e.projectId == r.projectId && e.actor == r.requestedBy
    && e.actorType == (if r.requestedBy.None? || r.requestedBy.value == "" then "system" else "user")
    && e.taskId == |l'.items| && e.action == Creating && e.result == "allow"
  }

  // ---- Whole runs ----

  datatype Op = Create(request: Request) | Decide(id: int, actor: string, approved: bool)

  function Step(l: Ledger, op: Op): Ledger {
    match op
    case Create(r) => Created(l, r)
    case Decide(id, actor, approved) => Decided(l, id, actor, approved)
  }

  function Run(l: Ledger, ops: seq<Op>): Ledger {
    if ops == [] then l else Step(Run(l, ops[..|ops| - 1]), ops[|ops| - 1])
  }

  predicate Decides(r: AuditRecord, id: int) {
    r.action.Deciding? && r.taskId == id
  }

  function DecisionCount(audit: seq<AuditRecord>, id: int): nat {
    if audit == [] then 0
    else DecisionCount(audit[..|audit| - 1], id) + if Decides(audit[|audit| - 1], id) then 1 else 0
  }

  /** A task is decided at most once, by someone other than who asked for it, and its status is that decision. */
  ghost predicate Settled(l: Ledger, id: int) {
    if 1 <= id <= |l.items| then
      var item := l.items[id - 1];
      && DecisionCount(l.audit, id) == (if item.status.Pending? then 0 else 1)
      && forall k :: 0 <= k < |l.audit| && Decides(l.audit[k], id) ==> Genuine(l.audit[k], item)
    else DecisionCount(l.audit, id) == 0
  }

  predicate Genuine(r: AuditRecord, item: Item) {
    && r.actor.Some? && r.actor != item.requestedBy && r.actorType == "user"
    && r.tenantId == item.tenantId && r.projectId == item.projectId && r.action.Deciding?
    && (if r.action.approved then item.status == Approved && r.result == "approved"
        else item.status == Rejected && r.result == "rejected")
  }

  lemma CountStep(audit: seq<AuditRecord>, r: AuditRecord, id: int)
    ensures DecisionCount(audit + [r], id) == DecisionCount(audit, id) + if Decides(r, id) then 1 else 0
  {
    assert (audit + [r])[..|audit|] == audit;
  }

  lemma {:induction false} NoDecisions(audit: seq<AuditRecord>, id: int)
    requires DecisionCount(audit, id) == 0
    ensures forall k :: 0 <= k < |audit| ==> !Decides(audit[k], id)
  {
    if audit != [] {
      NoDecisions(audit[..|audit| - 1], id);
    }
  }

  /** One more record that is no decision of this task. */
  lemma OtherRecord(l: Ledger, l': Ledger, r: AuditRecord, id: int)
    requires Settled(l, id) && l'.audit == l.audit + [r] && !Decides(r, id)
    requires 1 <= id <= |l.items| ==> id <= |l'.items| && l'.items[id - 1] == l.items[id - 1]
    requires !(1 <= id <= |l.items|) && 1 <= id <= |l'.items| ==> l'.items[id - 1].status.Pending?
    ensures Settled(l', id)
  {
    CountStep(l.audit, r, id);
    if DecisionCount(l.audit, id) == 0 {
      NoDecisions(l.audit, id);
    }
  }

  /** The decision of this task. */
  lemma OwnRecord(l: Ledger, l': Ledger, r: AuditRecord, id: int)
    requires Settled(l, id) && l'.audit == l.audit + [r] && Decides(r, id)
    requires 1 <= id <= |l.items| == |l'.items| && l.items[id - 1].status.Pending?
    requires !l'.items[id - 1].status.Pending? && Genuine(r, l'.items[id - 1])
    ensures Settled(l', id)
  {
    CountStep(l.audit, r, id);
    NoDecisions(l.audit, id);
  }

  lemma StepSettled(l: Ledger, op: Op, id: int)
    requires Settled(l, id)
    ensures Settled(Step(l, op), id)
  {
    var l' := Step(l, op);
    if |l'.audit| > |l.audit| {
      var r := l'.audit[|l.audit|];
      if Decides(r, id) {
        OwnRecord(l, l', r, id);
      } else {
        OtherRecord(l, l', r, id);
      }
    }
  }

  /** In every run from an empty service. */
  lemma {:induction false} DecidedOnceByAnother(ops: seq<Op>, id: int)
    ensures Settled(Run(Ledger([], []), ops), id)
  {
    if ops != [] {
      DecidedOnceByAnother(ops[..|ops| - 1], id);
      StepSettled(Run(Ledger([], []), ops[..|ops| - 1]), ops[|ops| - 1], id);
    }
  }

  /** A decided task never changes again. */
  lemma {:induction false} DecisionIsFinal(l: Ledger, ops: seq<Op>, i: nat)
    requires i < |l.items| && !l.items[i].status.Pending?
    ensures i < |Run(l, ops).items| && Run(l, ops).items[i] == l.items[i]
  {
    if ops != [] {
      DecisionIsFinal(l, ops[..|ops| - 1], i);
    }
  }

  // ---- The payload a decision returns ----

  /** In memory the stored payload gains the decision, an empty one if none was given. */
  function MemoryPayload(payload: Payload, decision: Option<map<string, string>>): Payload {
    payload["decision" := Decision(if decision.Some? then decision.value else map[])]
  }

  /** From SQL the stored payload gains the decision only if there is something in it. */
  function SqlPayload(payload: Payload, decision: Option<map<string, string>>): Payload {
    if decision.Some? && decision.value != map[] then payload["decision" := Decision(decision.value)] else payload
  }

  /** The two agree exactly when the decision says something, or the payload already held an empty decision. */
  lemma PayloadsAgreeExactly(payload: Payload, decision: Option<map<string, string>>)
    ensures MemoryPayload(payload, decision) == SqlPayload(payload, decision)
       <==> (decision.Some? && decision.value != map[])
            || ("decision" in payload && payload["decision"] == Decision(map[]))
  {
    if !(decision.Some? && decision.value != map[]) {
      assert MemoryPayload(payload, decision)["decision"] == Decision(map[]);
      if "decision" in payload && payload["decision"] == Decision(map[]) {
        assert MemoryPayload(payload, decision) == payload;
      }
    }
  }
}

/** hitl/service.py: the in-memory service and the one over task and approval rows. */
module HumanTasks {
  import opened Common
  import opened ApprovalLedger

  datatype TaskRecord = TaskRecord(id: int, item: Item, payload: Payload, updatedAt: Option<int>)

  function MemoryItems(tasks: map<int, TaskRecord>, n: int): seq<Item>
    requires n >= 1 && forall id :: 1 <= id < n ==> id in tasks
  {
    seq(n - 1, i requires 0 <= i < n - 1 => tasks[i + 1].item)
  }

  lemma OneItemChanged(tasks: map<int, TaskRecord>, n: int, id: int, t: TaskRecord)
    requires 1 <= id < n && forall i :: 1 <= i < n ==> i in tasks
    ensures MemoryItems(tasks[id := t], n) == MemoryItems(tasks, n)[id - 1 := t.item]
  {
  }

  class HumanTaskService {
    var tasks: map<int, TaskRecord>
    var nextId: int
    var audit: seq<AuditRecord>

    ghost predicate Valid()
      reads this
    {
      nextId >= 1 && forall id :: id in tasks <==> 1 <= id < nextId
    }

    ghost function View(): Ledger
      requires Valid()
      reads this
    {
      Ledger(MemoryItems(tasks, nextId), audit)
    }

    constructor ()
      ensures Valid() && View() == Ledger([], [])
    {
      tasks, nextId, audit := map[], 1, [];
    }

    method CreateApproval(r: Request) returns (task: TaskRecord)
      requires Valid()
      modifies this
      ensures Valid() && View() == Created(old(View()), r)
      ensures Opens(old(View()), r, View())
      ensures task == TaskRecord(old(nextId), Item(r.tenantId, r.projectId, r.subject, r.requestedBy, Pending),
                                 r.payload, None)
    {
      task := TaskRecord(nextId, Item(r.tenantId, r.projectId, r.subject, r.requestedBy, Pending), r.payload, None);
      nextId := nextId + 1;
      tasks := tasks[task.id := task];
      audit := audit + [CreateRecord(r, task.id)];
    }

    method DecideTask(id: int, actor: string, approved: bool, payload: Option<map<string, string>>, now: int)
      returns (r: Result<TaskRecord, Error>)
      requires Valid()
      modifies this
      ensures Valid() && View() == Decided(old(View()), id, actor, approved)
      ensures Rules(old(View()), id, actor, approved, View(), if r.Ok? then None else Some(r.error))
      ensures Refusal(old(View()), id, actor).Some? ==> r == Err(Refusal(old(View()), id, actor).value)
      ensures Refusal(old(View()), id, actor).None? ==>
        r.Ok? && r.value.id == id && r.value.item == View().items[id - 1] && r.value.updatedAt == Some(now)
      ensures r.Ok? ==> id in old(tasks) && r.value.payload == MemoryPayload(old(tasks)[id].payload, payload)
    {
      DecideExact(View(), id, actor, approved);
      if id !in tasks {
        return Err(UnknownTask);
      }
      var task := tasks[id];
      if task.item.requestedBy == Some(actor) {
        return Err(SelfReview);
      }
      if !task.item.status.Pending? {
        return Err(NotPending);
      }
      var status := if approved then Approved else Rejected;
      var decision := Decision(if payload.Some? then payload.value else map[]);
      var decided := TaskRecord(id, task.item.(status := status), task.payload["decision" := decision], Some(now));
      OneItemChanged(tasks, nextId, id, decided);
      tasks := tasks[id := decided];
      audit := audit + [DecideRecord(task.item, id, actor, approved)];
      r := Ok(decided);
    }
  }

  datatype TaskRow = TaskRow(
    tenantId: int, projectId: Option<int>, subject: Subject, status: Status, updatedAt: Option<int>)

  datatype ApprovalRow = ApprovalRow(
    taskId: int, requestedBy: Option<string>, status: Status, payload: Payload, decision: Option<map<string, string>>)

  /** The newest approval row of a task; rows are in id order. */
  function LatestApproval(approvals: seq<ApprovalRow>, taskId: int): Option<nat> {
    if approvals == [] then None
    else if approvals[|approvals| - 1].taskId == taskId then Some(|approvals| - 1)
    else LatestApproval(approvals[..|approvals| - 1], taskId)
  }

  /** Every task row has its one approval row, with the same status. */
  predicate Paired(tasks: seq<TaskRow>, approvals: seq<ApprovalRow>) {
    && |tasks| == |approvals|
    && forall i :: 0 <= i < |tasks| ==> approvals[i].taskId == i + 1 && approvals[i].status == tasks[i].status
  }

  lemma {:induction false} LatestIsOwn(tasks: seq<TaskRow>, approvals: seq<ApprovalRow>, id: int)
    requires Paired(tasks, approvals) && 1 <= id <= |tasks|
    ensures LatestApproval(approvals, id) == Some(id - 1)
  {
    if id < |tasks| {
      LatestIsOwn(tasks[..|tasks| - 1], approvals[..|tasks| - 1], id);
    }
  }

  function SqlItems(tasks: seq<TaskRow>, approvals: seq<ApprovalRow>): seq<Item>
    requires |tasks| == |approvals|
  {
    seq(|tasks|, i requires 0 <= i < |tasks| =>
      Item(tasks[i].tenantId, tasks[i].projectId, tasks[i].subject, approvals[i].requestedBy, tasks[i].status))
  }

  class SqlHumanTaskService {
    var tasks: seq<TaskRow>
    var approvals: seq<ApprovalRow>
    var audit: seq<AuditRecord>

    ghost predicate Valid()
      reads this
    {
      Paired(tasks, approvals)
    }

    ghost function View(): Ledger
      requires Valid()
      reads this
    {
      Ledger(SqlItems(tasks, approvals), audit)
    }

    constructor ()
      ensures Valid() && View() == Ledger([], [])
    {
      tasks, approvals, audit := [], [], [];
    }

    method CreateApproval(r: Request) returns (task: TaskRecord)
      requires Valid()
      modifies this
      ensures Valid() && View() == Created(old(View()), r)
      ensures Opens(old(View()), r, View())
      ensures task == TaskRecord(|old(tasks)| + 1, Item(r.tenantId, r.projectId, r.subject, r.requestedBy, Pending),
                                 r.payload, None)
    {
      tasks := tasks + [TaskRow(r.tenantId, r.projectId, r.subject, Pending, None)];
      var id := |tasks|;
      approvals := approvals + [ApprovalRow(id, r.requestedBy, Pending, r.payload, None)];
      audit := audit + [CreateRecord(r, id)];
      task := TaskRecord(id, Item(r.tenantId, r.projectId, r.subject, r.requestedBy, Pending), r.payload, None);
    }

    method DecideTask(id: int, actor: string, approved: bool, payload: Option<map<string, string>>, now: int)
      returns (r: Result<TaskRecord, Error>)
      requires Valid()
      modifies this
      ensures Valid() && View() == Decided(old(View()), id, actor, approved)
      ensures Rules(old(View()), id, actor, approved, View(), if r.Ok? then None else Some(r.error))
      ensures Refusal(old(View()), id, actor).Some? ==> r == Err(Refusal(old(View()), id, actor).value)
      ensures Refusal(old(View()), id, actor).None? ==>
        r.Ok? && r.value.id == id && r.value.item == View().items[id - 1] && r.value.updatedAt == Some(now)
      ensures r.Ok? ==>
        && 1 <= id <= |old(approvals)|
        && r.value.payload == SqlPayload(old(approvals)[id - 1].payload, payload)
    {
      DecideExact(View(), id, actor, approved);
      if !(1 <= id <= |tasks|) {
        return Err(UnknownTask);
      }
      LatestIsOwn(tasks, approvals, id);
      var latest := LatestApproval(approvals, id);
      var task, requestedBy := tasks[id - 1], None;
      if latest.Some? {
        requestedBy := approvals[latest.value].requestedBy;
      }
      if requestedBy == Some(actor) {
        return Err(SelfReview);
      }
      if !task.status.Pending? {
        return Err(NotPending);
      }
      var status := if approved then Approved else Rejected;
      tasks := tasks[id - 1 := task.(status := status, updatedAt := Some(now))];
      var data: Payload := map[];
      if latest.Some? {
        var row := approvals[latest.value];
        var decision := if payload.Some? then payload.value else map[];
        approvals := approvals[latest.value := row.(status := status, decision := Some(decision))];
        data := row.payload;
        if payload.Some? && payload.value != map[] {
          data := data["decision" := Decision(payload.value)];
        }
      }
      var item := Item(task.tenantId, task.projectId, task.subject, requestedBy, status);
      audit := audit + [DecideRecord(item, id, actor, approved)];
      r := Ok(TaskRecord(id, item, data, Some(now)));
    }
  }
}
