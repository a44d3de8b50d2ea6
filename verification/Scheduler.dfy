/** The scheduler package: tasks leased to workers, with fencing tokens. The in-memory, the Redis and the SQL backend
    share one protocol and differ in a few places. */
module Tasks {
  import opened Common

  datatype Status = Queued | Leased | Running | Retrying | Failing | Succeeded | DeadLetter | Cancelled

  datatype Backend = InMemory | Redis | Sql

  datatype Error = NotFound | StaleToken | NotOwner | BadTransition

  datatype Task = Task(
    queue: string, priority: int, status: Status, attempt: int, maxAttempts: int,
    worker: Option<string>, leasedUntil: Option<int>, heartbeatAt: Option<int>, scheduledAt: Option<int>,
    token: nat, createdAt: int)

  /** TASK_TRANSITIONS */
  predicate CanGo(from: Status, to: Status) {
    match from
    case Queued => to.Leased? || to.Cancelled?
    case Leased => to.Running? || to.Queued?
    case Running => to.Succeeded? || to.Failing? || to.Retrying? || to.Cancelled? || to.DeadLetter?
    case Retrying => to.Queued?
    case Failing => to.Retrying? || to.DeadLetter?
    case _ => false
  }

  predicate Durable(b: Backend) {
    !b.InMemory?
  }

  predicate Terminal(s: Status) {
    s.Succeeded? || s.DeadLetter? || s.Cancelled?
  }

  predicate Held(t: Task) {
    t.status.Leased? || t.status.Running?
  }

  /** Between operations a task is waiting, held by a worker under a lease, or finished. */
  predicate Settled(t: Task) {
    && (t.status.Queued? || Held(t) || Terminal(t.status))
    && (Held(t) ==> t.worker.Some? && t.leasedUntil.Some? && t.token > 0)
  }

  predicate OutOfAttempts(t: Task) {
    t.attempt + 1 >= t.maxAttempts
  }

  predicate Expired(t: Task, now: int) {
    Held(t) && t.leasedUntil.Some? && t.leasedUntil.value < now
  }

  function Granted(t: Task, worker: string, seconds: int, now: int): Task {
    t.(status := Leased, worker := Some(worker), leasedUntil := Some(now + seconds), heartbeatAt := Some(now),
       token := t.token + 1)
  }

  function Requeued(t: Task): Task {
    t.(status := Queued, worker := None, leasedUntil := None)
  }

  /** An expired lease sends its task back to the queue. Only the durable backends count the lost run of a
      running task as an attempt. */
  function Reaped(b: Backend, t: Task, now: int): Task {
    if !Expired(t, now) then t
    else if t.status.Leased? || b.InMemory? then Requeued(t)
    else if OutOfAttempts(t) then t.(status := DeadLetter, worker := None, leasedUntil := None)
    else Requeued(t.(attempt := t.attempt + 1))
  }

  function Heartbeaten(t: Task, worker: string, seconds: int, now: int): Result<Task, Error> {
    if t.worker != Some(worker) then Err(NotOwner)
    else Ok(t.(heartbeatAt := Some(now), leasedUntil := Some(now + seconds)))
  }

  /** Redis looks at the token first, the other two at the owner. */
  function Started(b: Backend, t: Task, worker: string, token: int): Result<Task, Error> {
    if b.Redis? && t.token != token then Err(StaleToken)
    else if t.worker != Some(worker) then Err(NotOwner)
    else if t.token != token then Err(StaleToken)
    else if !CanGo(t.status, Running) then Err(BadTransition)
    else Ok(t.(status := Running))
  }

  /** Only the durable backends let a worker complete a task it never marked as running. */
  function Completed(b: Backend, t: Task, worker: string, token: int): Result<Task, Error> {
    if t.token != token then Err(StaleToken)
    else if t.worker != Some(worker) then Err(NotOwner)
    else if !CanGo(if Durable(b) && t.status.Leased? then Running else t.status, Succeeded) then Err(BadTransition)
    else Ok(t.(status := Succeeded, leasedUntil := if Durable(b) then None else t.leasedUntil))
  }

  function Failed(b: Backend, t: Task, worker: string, token: int): Result<Task, Error> {
    if t.token != token then Err(StaleToken)
    else if t.worker != Some(worker) then Err(NotOwner)
    else if !CanGo(if t.status.Leased? then Running else t.status, Failing) then Err(BadTransition)
    else if OutOfAttempts(t) then
      Ok(t.(status := DeadLetter, leasedUntil := if Durable(b) then None else t.leasedUntil))
    else Ok(Requeued(t.(attempt := t.attempt + 1)))
  }

  function CancelledTask(t: Task): Result<Task, Error> {
    if !CanGo(if t.status.Leased? then Running else t.status, Cancelled) then Err(BadTransition)
    else Ok(t.(status := Cancelled))
  }

  /** Failures a task can still take before it is dead. */
  function Remaining(t: Task): nat {
    if Terminal(t.status) then 0 else Max(t.maxAttempts - t.attempt, 1)
  }

  /** Everything a client of the protocol can see; a finished task's lease no longer matters. */
  predicate SameView(t: Task, u: Task) {
    t == u || (Terminal(t.status) && t.(leasedUntil := None) == u.(leasedUntil := None))
  }

  predicate SameResult(r: Result<Task, Error>, q: Result<Task, Error>) {
    (r.Ok? <==> q.Ok?) && (r.Err? ==> r.error == q.error) && (r.Ok? ==> SameView(r.value, q.value))
  }

  /** Where a durable backend agrees with the in-memory one on a settled task, exactly: they differ only when the
      rightful holder completes a task it never started, when a running task's lease is reaped, and, with Redis, in
      the error given to a starter who is neither owner nor up to date. */
  lemma BackendsAgree(b: Backend, t: Task, worker: string, token: int, now: int)
    requires Durable(b) && Settled(t)
    ensures SameResult(Failed(InMemory, t, worker, token), Failed(b, t, worker, token))
    ensures SameResult(Completed(InMemory, t, worker, token), Completed(b, t, worker, token))
       <==> !(t.status.Leased? && t.worker == Some(worker) && t.token == token)
    ensures SameResult(Started(InMemory, t, worker, token), Started(b, t, worker, token))
       <==> !(b.Redis? && t.worker != Some(worker) && t.token != token)
    ensures SameView(Reaped(InMemory, t, now), Reaped(b, t, now)) <==> !(t.status.Running? && Expired(t, now))
  {
  }
}

/** The backends' tables of tasks and the operations on them. */
module TaskTable {
  import opened Common
  import opened Tasks

  datatype Table = Table(tasks: map<int, Task>, order: seq<int>, dead: seq<int>, nextId: int)

  datatype Submission = Submission(
    taskId: Option<int>, queue: string, priority: int, attempt: int, maxAttempts: int, scheduledAt: Option<int>)

  /** A lease reads the clock twice, once for the reaper. The durable backends choose among the eligible tasks by an
      order and by quotas of their own, so their choice comes in from outside; so does the queue a Redis reap is
      asked for. */
  datatype Op =
    | Enqueue(sub: Submission, at: int)
    | Lease(queue: string, worker: string, seconds: int, now: int, reapAt: int, choice: Option<int>)
    | Heartbeat(id: int, worker: string, seconds: int, now: int)
    | MarkRunning(id: int, worker: string, token: int)
    | Complete(id: int, worker: string, token: int)
    | Fail(id: int, worker: string, token: int)
    | Cancel(id: int)
    | Reap(reapAt: int, only: Option<string>)

  datatype Reply = Done | Enqueued(id: int) | Idle | Leasing(id: int, task: Task)

  datatype Outcome = Outcome(table: Table, reply: Result<Reply, Error>)

  /** Whether a submission brings its own id: 0 counts as not given, and SQL never takes one. */
  predicate Explicit(b: Backend, sub: Submission) {
    !b.Sql? && sub.taskId.Some? && sub.taskId.value != 0
  }

  function SubmittedId(b: Backend, s: Table, sub: Submission): int {
    if Explicit(b, sub) then sub.taskId.value else s.nextId
  }

  function NewTask(sub: Submission, now: int): Task {
    Task(sub.queue, sub.priority, Queued, sub.attempt, sub.maxAttempts, None, None, None, sub.scheduledAt, 0, now)
  }

  /** Redis writes the new fields into the hash of a known id, so the ones it does not write stay. */
  function Stored(b: Backend, s: Table, sub: Submission, now: int): Task {
    var id, t := SubmittedId(b, s, sub), NewTask(sub, now);
    if !b.Redis? || id !in s.tasks then t
    else
      var was := s.tasks[id];
      t.(worker := was.worker, leasedUntil := was.leasedUntil, heartbeatAt := was.heartbeatAt,
         scheduledAt := if sub.scheduledAt.Some? then sub.scheduledAt else was.scheduledAt)
  }

  /** A known id is overwritten in place; its slot in the table's order stays. A given id moves the counter past
      itself in memory, but not in Redis. */
  function Submitted(b: Backend, s: Table, sub: Submission, now: int): Table {
    var id := SubmittedId(b, s, sub);
    s.(tasks := s.tasks[id := Stored(b, s, sub, now)],
       order := if id in s.tasks then s.order else s.order + [id],
       nextId := if b.Redis? && Explicit(b, sub) then s.nextId else Max(s.nextId, id + 1))
  }

  /** A Redis reap works on one queue, "default" unless it is told otherwise; the others work on all. */
  predicate InReach(b: Backend, t: Task, only: Option<string>) {
    b.Redis? ==> t.queue == if only.Some? then only.value else "default"
  }

  function ReapedIn(b: Backend, t: Task, now: int, only: Option<string>): Task {
    if InReach(b, t, only) then Reaped(b, t, now) else t
  }

  function AllReaped(b: Backend, s: Table, now: int, only: Option<string>): Table {
    s.(tasks := map id | id in s.tasks :: ReapedIn(b, s.tasks[id], now, only))
  }

  lemma ReachesAll(s: Table, now: int, only: Option<string>)
    ensures AllReaped(InMemory, s, now, only) == AllReaped(InMemory, s, now, None)
  {
    var r, q := AllReaped(InMemory, s, now, only).tasks, AllReaped(InMemory, s, now, None).tasks;
    assert forall id :: id in r ==> r[id] == q[id];
    assert r == q;
  }

  predicate Eligible(t: Task, queue: string, now: int) {
    t.queue == queue && t.status.Queued? && (t.scheduledAt.None? || t.scheduledAt.value <= now)
  }

  /** Sorting by (-priority, created_at): whether t comes strictly before u. */
  predicate Before(t: Task, u: Task) {
    t.priority > u.priority || (t.priority == u.priority && t.createdAt < u.createdAt)
  }

  /** The eligible task that sorts first; among equals the one earlier in the table. */
  function Pick(tasks: map<int, Task>, order: seq<int>, queue: string, now: int): (pick: Option<int>)
    ensures pick.Some? ==> pick.value in order && pick.value in tasks && Eligible(tasks[pick.value], queue, now)
    ensures forall id <- order :: id in tasks && Eligible(tasks[id], queue, now) ==>
      pick.Some? && !Before(tasks[id], tasks[pick.value])
  {
    if order == [] then None
    else
      var id := order[|order| - 1];
      var best := Pick(tasks, order[..|order| - 1], queue, now);
      assert order == order[..|order| - 1] + [id];
      if id !in tasks || !Eligible(tasks[id], queue, now) then best
      else if best.None? || Before(tasks[id], tasks[best.value]) then Some(id)
      else best
  }

  /** The place of what sorts first: nothing eligible sorts before it, and what stands before it in the table
      sorts after it. */
  predicate Leads(tasks: map<int, Task>, order: seq<int>, k: int, queue: string, now: int) {
    && 0 <= k < |order| && order[k] in tasks && Eligible(tasks[order[k]], queue, now)
    && (forall j :: 0 <= j < |order| && order[j] in tasks && Eligible(tasks[order[j]], queue, now) ==>
          !Before(tasks[order[j]], tasks[order[k]]) && (j < k ==> Before(tasks[order[k]], tasks[order[j]])))
  }

  lemma {:induction false} PickLeads(tasks: map<int, Task>, order: seq<int>, queue: string, now: int) returns (k: nat)
    ensures Pick(tasks, order, queue, now).Some? ==>
      Leads(tasks, order, k, queue, now) && Pick(tasks, order, queue, now) == Some(order[k])
  {
    k := 0;
    if order != [] {
      var init := order[..|order| - 1];
      k := PickLeads(tasks, init, queue, now);
      if Pick(tasks, order, queue, now) != Pick(tasks, init, queue, now) {
        k := |order| - 1;
        forall j | 0 <= j < |order| && order[j] in tasks && Eligible(tasks[order[j]], queue, now)
          ensures !Before(tasks[order[j]], tasks[order[k]]) && (j < k ==> Before(tasks[order[k]], tasks[order[j]]))
        {
          if j < k {
            assert order[j] == init[j];
          }
        }
      }
    }
  }

  /** What a lease of a queue may take. Redis looks in the queue's sorted set, where an id that was submitted again
      under another queue stays, so the queue a task names does not matter there. */
  predicate Leasable(b: Backend, t: Task, queue: string, now: int) {
    Eligible(t, if b.Redis? then t.queue else queue, now)
  }

  /** Which task a lease takes: in memory the first, elsewhere the one chosen, if it can be leased. */
  function Taken(b: Backend, r: Table, queue: string, now: int, choice: Option<int>): (taken: Option<int>)
    ensures taken.Some? ==> taken.value in r.tasks && Leasable(b, r.tasks[taken.value], queue, now)
  {
    if b.InMemory? then Pick(r.tasks, r.order, queue, now)
    else if choice.Some? && choice.value in r.tasks && Leasable(b, r.tasks[choice.value], queue, now) then choice
    else None
  }

  function OnTask(s: Table, id: int, change: Task -> Result<Task, Error>): Outcome {
    if id !in s.tasks then Outcome(s, Err(NotFound))
    else
      match change(s.tasks[id])
      case Err(e) => Outcome(s, Err(e))
      case Ok(t) => Outcome(s.(tasks := s.tasks[id := t]), Ok(Done))
  }

  /** A task that fails for the last time also joins the dead letters. */
  function Buried(o: Outcome, id: int): Outcome {
    if o.reply.Ok? && id in o.table.tasks && o.table.tasks[id].status.DeadLetter?
    then o.(table := o.table.(dead := o.table.dead + [id]))
    else o
  }

  /** A lease once expired ones were returned. */
  function LeasedFrom(b: Backend, r: Table, queue: string, worker: string, seconds: int, now: int,
                      choice: Option<int>): Outcome {
    match Taken(b, r, queue, now, choice)
    case None => Outcome(r, Ok(Idle))
    case Some(id) =>
      var t := Granted(r.tasks[id], worker, seconds, now);
      Outcome(r.(tasks := r.tasks[id := t]), Ok(Leasing(id, t)))
  }

  function Step(b: Backend, s: Table, op: Op): Outcome {
    match op
    case Enqueue(sub, at) => Outcome(Submitted(b, s, sub, at), Ok(Enqueued(SubmittedId(b, s, sub))))
    case Lease(queue, worker, seconds, now, reapAt, choice) =>
      LeasedFrom(b, AllReaped(b, s, reapAt, Some(queue)), queue, worker, seconds, now, choice)
    case Heartbeat(id, worker, seconds, now) => OnTask(s, id, (t: Task) => Heartbeaten(t, worker, seconds, now))
    case MarkRunning(id, worker, token) => OnTask(s, id, (t: Task) => Started(b, t, worker, token))
    case Complete(id, worker, token) => OnTask(s, id, (t: Task) => Completed(b, t, worker, token))
    case Fail(id, worker, token) => Buried(OnTask(s, id, (t: Task) => Failed(b, t, worker, token)), id)
    case Cancel(id) => OnTask(s, id, (t: Task) => CancelledTask(t))
    case Reap(reapAt, only) => Outcome(AllReaped(b, s, reapAt, only), Ok(Done))
  }

  function Run(b: Backend, s: Table, ops: seq<Op>): Table {
    if ops == [] then s else Step(b, Run(b, s, ops[..|ops| - 1]), ops[|ops| - 1]).table
  }

  // ---- Submissions ----

  /** What enqueuing leaves: under the id it was given, or the counter's if it was given none or 0 or the backend takes
      none, the submission waits in the queue, at the priority and for the time it asked for, with its attempts and
      without a lease; in Redis it keeps what a known id had and it does not say itself. */
  ghost predicate Enqueues(b: Backend, s: Table, sub: Submission, at: int, s': Table, id: int) {
    && id == (if b.Sql? || sub.taskId.None? || sub.taskId.value == 0 then s.nextId else sub.taskId.value)
    && id in s'.tasks && s'.tasks == s.tasks[id := s'.tasks[id]]
    && s'.order == (if id in s.tasks then s.order else s.order + [id]) && s'.dead == s.dead
    && s'.nextId == (if s.nextId > id || (b.Redis? && sub.taskId.Some? && sub.taskId.value != 0) then s.nextId
                     else id + 1)
    && var t := s'.tasks[id];
    && t.status == Queued && t.queue == sub.queue && t.priority == sub.priority && t.token == 0
    && t.attempt == sub.attempt && t.maxAttempts == sub.maxAttempts && t.createdAt == at
    && if b.Redis? && id in s.tasks then
         var was := s.tasks[id];
         && t.worker == was.worker && t.leasedUntil == was.leasedUntil && t.heartbeatAt == was.heartbeatAt
         && t.scheduledAt == if sub.scheduledAt.None? then was.scheduledAt else sub.scheduledAt
       else
         t.worker.None? && t.leasedUntil.None? && t.heartbeatAt.None? && t.scheduledAt == sub.scheduledAt
  }

  lemma EnqueueExact(b: Backend, s: Table, sub: Submission, at: int)
    ensures Step(b, s, Enqueue(sub, at)).reply.Ok? && Step(b, s, Enqueue(sub, at)).reply.value.Enqueued?
    ensures Enqueues(b, s, sub, at, Step(b, s, Enqueue(sub, at)).table, Step(b, s, Enqueue(sub, at)).reply.value.id)
  {
  }

  // ---- What an operation does to one task ----

  predicate Resubmits(b: Backend, s: Table, op: Op, id: int) {
    op.Enqueue? && SubmittedId(b, s, op.sub) == id
  }

  predicate LeasesTask(b: Backend, s: Table, op: Op, id: int) {
    && op.Lease? && Step(b, s, op).reply.Ok?
    && Step(b, s, op).reply.value.Leasing? && Step(b, s, op).reply.value.id == id
  }

  function OrSame(r: Result<Task, Error>, t: Task): Task {
    if r.Ok? then r.value else t
  }

  /** The task under an id after an operation that does not submit it again; leased says whether a lease took it. */
  function TaskAfter(b: Backend, t: Task, op: Op, id: int, leased: bool): Task {
    match op
    case Enqueue(_, _) => t
    case Lease(queue, worker, seconds, now, reapAt, _) =>
      var r := ReapedIn(b, t, reapAt, Some(queue));
      if leased then Granted(r, worker, seconds, now) else r
    case Heartbeat(i, worker, seconds, now) => if i == id then OrSame(Heartbeaten(t, worker, seconds, now), t) else t
    case MarkRunning(i, worker, token) => if i == id then OrSame(Started(b, t, worker, token), t) else t
    case Complete(i, worker, token) => if i == id then OrSame(Completed(b, t, worker, token), t) else t
    case Fail(i, worker, token) => if i == id then OrSame(Failed(b, t, worker, token), t) else t
    case Cancel(i) => if i == id then OrSame(CancelledTask(t), t) else t
    case Reap(reapAt, only) => ReapedIn(b, t, reapAt, only)
  }

  predicate MayLease(b: Backend, t: Task, op: Op) {
    op.Lease? && Leasable(b, ReapedIn(b, t, op.reapAt, Some(op.queue)), op.queue, op.now)
  }

  lemma StepAt(b: Backend, s: Table, op: Op, id: int)
    requires id in s.tasks && !Resubmits(b, s, op, id)
    ensures id in Step(b, s, op).table.tasks
    ensures Step(b, s, op).table.tasks[id] == TaskAfter(b, s.tasks[id], op, id, LeasesTask(b, s, op, id))
    ensures LeasesTask(b, s, op, id) ==> MayLease(b, s.tasks[id], op)
    ensures s.order <= Step(b, s, op).table.order && s.nextId <= Step(b, s, op).table.nextId
  {
  }

  // ---- What every operation keeps ----

  /** The task under an id, if there is one, is settled and stands in the order; save in Redis, a waiting task has no
      trace of a holder and the counter has passed every id. */
  predicate TaskOk(b: Backend, s: Table, id: int) {
    id in s.tasks ==>
      var t := s.tasks[id];
      && id in s.order && Settled(t)
      && (!b.Redis? ==> id < s.nextId && (t.status.Queued? ==> t.worker.None? && t.leasedUntil.None?))
  }

  ghost predicate Sound(b: Backend, s: Table) {
    forall id :: TaskOk(b, s, id)
  }

  lemma TaskStaysSettled(b: Backend, t: Task, op: Op, id: int, leased: bool)
    requires Settled(t) && (leased ==> MayLease(b, t, op))
    ensures Settled(TaskAfter(b, t, op, id, leased))
  {
  }

  lemma TaskStaysTidy(b: Backend, t: Task, op: Op, id: int, leased: bool)
    requires t.status.Queued? ==> t.worker.None? && t.leasedUntil.None?
    ensures var u := TaskAfter(b, t, op, id, leased); u.status.Queued? ==> u.worker.None? && u.leasedUntil.None?
  {
  }

  lemma StepSound(b: Backend, s: Table, op: Op, id: int)
    requires Sound(b, s)
    ensures TaskOk(b, Step(b, s, op).table, id)
  {
    assert TaskOk(b, s, id);
    if id in s.tasks && !Resubmits(b, s, op, id) {
      StepAt(b, s, op, id);
      TaskStaysSettled(b, s.tasks[id], op, id, LeasesTask(b, s, op, id));
      if !b.Redis? {
        TaskStaysTidy(b, s.tasks[id], op, id, LeasesTask(b, s, op, id));
      }
    }
  }

  lemma {:induction false} RunSound(b: Backend, s: Table, ops: seq<Op>)
    requires Sound(b, s)
    ensures Sound(b, Run(b, s, ops))
  {
    if ops != [] {
      RunSound(b, s, ops[..|ops| - 1]);
      var before := Run(b, s, ops[..|ops| - 1]);
      var after := Step(b, before, ops[|ops| - 1]).table;
      forall id ensures TaskOk(b, after, id) {
        StepSound(b, before, ops[|ops| - 1], id);
      }
    }
  }

  // ---- When an id is submitted again ----

  predicate Names(b: Backend, op: Op, id: int) {
    op.Enqueue? && Explicit(b, op.sub) && op.sub.taskId.value == id
  }

  predicate NeverNamed(b: Backend, ops: seq<Op>, id: int) {
    forall i :: 0 <= i < |ops| ==> !Names(b, ops[i], id)
  }

  /** Only in Redis can the counter still run into a known id. */
  predicate OutOfReach(b: Backend, s: Table, id: int) {
    b.Redis? ==> id < s.nextId
  }

  /** A known id is submitted again exactly by an enqueue that names it, and in Redis also by an enqueue without an id
      at the moment the counter stands at it. */
  lemma ResubmissionExact(b: Backend, s: Table, op: Op, id: int)
    requires Sound(b, s) && id in s.tasks
    ensures Resubmits(b, s, op, id)
       <==> Names(b, op, id) || (b.Redis? && op.Enqueue? && !Explicit(b, op.sub) && s.nextId == id)
    ensures OutOfReach(b, s, id) ==> OutOfReach(b, Step(b, s, op).table, id)
  {
    assert TaskOk(b, s, id);
  }

  /** And the counter does get there: of a row of Redis enqueues without ids, exactly the one after id - nextId others
      hits a given id that lies ahead of the counter. */
  lemma {:induction false} CounterHitsExactly(s: Table, ops: seq<Op>, op: Op, id: int)
    requires op.Enqueue? && !Explicit(Redis, op.sub)
    requires forall i :: 0 <= i < |ops| ==> ops[i].Enqueue? && !Explicit(Redis, ops[i].sub)
    ensures Run(Redis, s, ops).nextId == s.nextId + |ops|
    ensures Resubmits(Redis, Run(Redis, s, ops), op, id) <==> |ops| == id - s.nextId
  {
    if ops != [] {
      CounterHitsExactly(s, ops[..|ops| - 1], op, id);
    }
  }

  // ---- Progress ----

  /** How a task may change between two moments of a run in which it is not submitted again. */
  predicate Progressed(t: Task, u: Task) {
    && t.token <= u.token
    && t.attempt <= u.attempt
    && t.queue == u.queue && t.priority == u.priority && t.maxAttempts == u.maxAttempts && t.createdAt == u.createdAt
    && Remaining(u) <= Remaining(t)
    && (Terminal(t.status) ==> u.status == t.status && u.token == t.token && u.attempt == t.attempt)
  }

  lemma TaskProgress(b: Backend, t: Task, op: Op, id: int, leased: bool)
    requires Settled(t) && (leased ==> MayLease(b, t, op))
    ensures Progressed(t, TaskAfter(b, t, op, id, leased))
  {
  }

  lemma StepProgress(b: Backend, s: Table, op: Op, id: int)
    requires Sound(b, s) && id in s.tasks && !Resubmits(b, s, op, id)
    ensures id in Step(b, s, op).table.tasks
    ensures Progressed(s.tasks[id], Step(b, s, op).table.tasks[id])
  {
    assert TaskOk(b, s, id);
    StepAt(b, s, op, id);
    TaskProgress(b, s.tasks[id], op, id, LeasesTask(b, s, op, id));
  }

  lemma {:induction false} RunProgress(b: Backend, s: Table, ops: seq<Op>, id: int)
    requires Sound(b, s) && id in s.tasks && OutOfReach(b, s, id) && NeverNamed(b, ops, id)
    ensures id in Run(b, s, ops).tasks && Progressed(s.tasks[id], Run(b, s, ops).tasks[id])
    ensures OutOfReach(b, Run(b, s, ops), id)
  {
    if ops != [] {
      var init, op := ops[..|ops| - 1], ops[|ops| - 1];
      RunProgress(b, s, init, id);
      RunSound(b, s, init);
      ResubmissionExact(b, Run(b, s, init), op, id);
      StepProgress(b, Run(b, s, init), op, id);
    }
  }

  // ---- The fence ----

  /** Starting, completing or failing a task as a worker holding a token. */
  predicate Acts(op: Op, id: int, worker: string, token: int) {
    op == MarkRunning(id, worker, token) || op == Complete(id, worker, token) || op == Fail(id, worker, token)
  }

  /** Fencing: once a newer lease of a task exists, no operation under an older token does anything, whoever
      sends it and however long the run has gone on, in every run in which no enqueue names this task. */
  lemma StaleHolderIsFenced(b: Backend, s: Table, ops: seq<Op>, id: int, worker: string, token: int, op: Op)
    requires Sound(b, s) && id in s.tasks && OutOfReach(b, s, id) && NeverNamed(b, ops, id)
    requires token < s.tasks[id].token && Acts(op, id, worker, token)
    ensures Step(b, Run(b, s, ops), op).table == Run(b, s, ops) && Step(b, Run(b, s, ops), op).reply.Err?
    ensures !op.MarkRunning? || b.Redis? ==> Step(b, Run(b, s, ops), op).reply == Err(StaleToken)
  {
    RunProgress(b, s, ops, id);
  }

  /** An operation on a task gets through exactly for the worker and the token of its latest lease, and then exactly
      from the status it starts from. */
  lemma OnlyHolderActs(b: Backend, s: Table, op: Op, id: int, worker: string, token: int)
    requires Acts(op, id, worker, token)
    ensures Step(b, s, op).reply.Ok? <==>
      && id in s.tasks && s.tasks[id].worker == Some(worker) && s.tasks[id].token == token
      && match op
         case MarkRunning(_, _, _) => s.tasks[id].status.Leased?
         case Complete(_, _, _) => s.tasks[id].status.Running? || (Durable(b) && s.tasks[id].status.Leased?)
         case _ => s.tasks[id].status.Leased? || s.tasks[id].status.Running?
  {
  }

  /** A task can be cancelled, by anyone, exactly while it is waiting or held. */
  lemma CancelExact(b: Backend, s: Table, id: int)
    ensures var o := Step(b, s, Cancel(id));
      && (o.reply == Ok(Done) <==> id in s.tasks && s.tasks[id].status in {Queued, Leased, Running})
      && (id !in s.tasks ==> o == Outcome(s, Err(NotFound)))
      && (id in s.tasks && o.reply.Err? ==> o == Outcome(s, Err(BadTransition)))
      && (o.reply.Ok? ==> o.table == s.(tasks := s.tasks[id := s.tasks[id].(status := Cancelled)]))
  {
  }

  /** A lease hands out this task as it then stands in the table, under a larger token than before. */
  lemma LeaseRaisesToken(b: Backend, s: Table, op: Op, id: int)
    requires LeasesTask(b, s, op, id)
    ensures id in s.tasks && id in Step(b, s, op).table.tasks
    ensures Step(b, s, op).reply.value.task == Step(b, s, op).table.tasks[id]
    ensures Step(b, s, op).table.tasks[id].token == s.tasks[id].token + 1
    ensures Step(b, s, op).table.tasks[id].status.Leased? && Step(b, s, op).table.tasks[id].worker == Some(op.worker)
    ensures Step(b, s, op).table.tasks[id].leasedUntil == Some(op.now + op.seconds)
    ensures Step(b, s, op).table.tasks[id].heartbeatAt == Some(op.now)
  {
  }

  /** Two leases of one task in a run never carry the same token: the later one's is larger. */
  lemma LeasesAreOrdered(b: Backend, s: Table, first: Op, between: seq<Op>, second: Op, id: int)
    requires Sound(b, s) && LeasesTask(b, s, first, id)
    ensures var s1 := Step(b, s, first).table;
      var r := Run(b, s1, between);
      OutOfReach(b, s1, id) && NeverNamed(b, between, id) && LeasesTask(b, r, second, id) ==>
        Step(b, s, first).reply.value.task.token < Step(b, r, second).reply.value.task.token
  {
    var s1 := Step(b, s, first).table;
    var r := Run(b, s1, between);
    if OutOfReach(b, s1, id) && NeverNamed(b, between, id) && LeasesTask(b, r, second, id) {
      forall i ensures TaskOk(b, s1, i) {
        StepSound(b, s, first, i);
      }
      LeaseRaisesToken(b, s, first, id);
      RunProgress(b, s1, between, id);
      LeaseRaisesToken(b, r, second, id);
    }
  }

  function LeaseCount(b: Backend, s: Table, ops: seq<Op>, id: int): nat {
    if ops == [] then 0
    else
      var init := ops[..|ops| - 1];
      LeaseCount(b, s, init, id) + if LeasesTask(b, Run(b, s, init), ops[|ops| - 1], id) then 1 else 0
  }

  lemma StepToken(b: Backend, s: Table, op: Op, id: int)
    requires id in s.tasks && !Resubmits(b, s, op, id)
    ensures id in Step(b, s, op).table.tasks
    ensures Step(b, s, op).table.tasks[id].token == s.tasks[id].token + if LeasesTask(b, s, op, id) then 1 else 0
  {
    StepAt(b, s, op, id);
  }

  /** A token is a count of leases, since this task was last submitted. */
  lemma {:induction false} TokensCountLeases(b: Backend, s: Table, ops: seq<Op>, id: int)
    requires Sound(b, s) && id in s.tasks && OutOfReach(b, s, id) && NeverNamed(b, ops, id)
    ensures id in Run(b, s, ops).tasks
      && Run(b, s, ops).tasks[id].token == s.tasks[id].token + LeaseCount(b, s, ops, id)
  {
    if ops != [] {
      var init, op := ops[..|ops| - 1], ops[|ops| - 1];
      TokensCountLeases(b, s, init, id);
      RunProgress(b, s, init, id);
      RunSound(b, s, init);
      ResubmissionExact(b, Run(b, s, init), op, id);
      StepToken(b, Run(b, s, init), op, id);
    }
  }

  /** Where the fence fails, exactly. Submitting a known id again starts its tokens from zero, so a holder from before
      gets through after any further run exactly when the new task has been leased as often as its old token says and
      the latest of those leases went to the same worker, who must still hold it in the status the operation needs. */
  lemma ResubmissionReopensFence(b: Backend, s: Table, again: Op, ops: seq<Op>, id: int, worker: string, token: int,
                                 op: Op)
    requires Sound(b, s) && id in s.tasks && Resubmits(b, s, again, id)
    requires OutOfReach(b, Step(b, s, again).table, id) && NeverNamed(b, ops, id) && Acts(op, id, worker, token)
    ensures var s1 := Step(b, s, again).table;
      var r := Run(b, s1, ops);
      && id in r.tasks
      && (Step(b, r, op).reply.Ok? <==>
            && LeaseCount(b, s1, ops, id) == token && r.tasks[id].worker == Some(worker)
            && match op
               case MarkRunning(_, _, _) => r.tasks[id].status.Leased?
               case Complete(_, _, _) => r.tasks[id].status.Running? || (Durable(b) && r.tasks[id].status.Leased?)
               case _ => Held(r.tasks[id]))
  {
    var s1 := Step(b, s, again).table;
    forall i ensures TaskOk(b, s1, i) {
      StepSound(b, s, again, i);
    }
    TokensCountLeases(b, s1, ops, id);
    OnlyHolderActs(b, Run(b, s1, ops), op, id, worker, token);
  }

  /** The shortest such run: after one re-submission and one lease of this task, the holder of its very first lease can
      start it exactly if that lease went to the same worker. */
  lemma FirstTokenRepeats(b: Backend, s: Table, again: Op, lease: Op, id: int, worker: string)
    requires Sound(b, s) && id in s.tasks && Resubmits(b, s, again, id)
    requires LeasesTask(b, Step(b, s, again).table, lease, id)
    ensures var r := Step(b, Step(b, s, again).table, lease).table;
      Step(b, r, MarkRunning(id, worker, 1)).reply.Ok? <==> worker == lease.worker
  {
    LeaseRaisesToken(b, Step(b, s, again).table, lease, id);
  }

  // ---- Leases ----

  /** Waiting in this queue, and its time has come. */
  predicate Due(t: Task, queue: string, now: int) {
    t.queue == queue && t.status == Queued && (t.scheduledAt.Some? ==> t.scheduledAt.value <= now)
  }

  /** This task, of those due, has the highest priority, was created first among equals, and stands first in the table
      among those created together. */
  ghost predicate FirstChoice(s: Table, k: int, queue: string, now: int) {
    && 0 <= k < |s.order| && s.order[k] in s.tasks && Due(s.tasks[s.order[k]], queue, now)
    && var t := s.tasks[s.order[k]];
    && (forall other :: other in s.tasks && Due(s.tasks[other], queue, now) ==>
          || s.tasks[other].priority < t.priority
          || (s.tasks[other].priority == t.priority && s.tasks[other].createdAt >= t.createdAt))
    && (forall j :: 0 <= j < k && s.order[j] in s.tasks && Due(s.tasks[s.order[j]], queue, now) ==>
          || s.tasks[s.order[j]].priority < t.priority
          || (s.tasks[s.order[j]].priority == t.priority && s.tasks[s.order[j]].createdAt > t.createdAt))
  }

  lemma FirstDue(r: Table, k: nat, queue: string, now: int)
    requires Leads(r.tasks, r.order, k, queue, now) && forall id :: id in r.tasks ==> id in r.order
    ensures FirstChoice(r, k, queue, now)
  {
    var t := r.tasks[r.order[k]];
    forall other | other in r.tasks && Due(r.tasks[other], queue, now) ensures !Before(r.tasks[other], t) {
      var j :| 0 <= j < |r.order| && r.order[j] == other;
    }
  }

  ghost predicate NoneDue(s: Table, queue: string, now: int) {
    forall id :: id in s.tasks ==> !Due(s.tasks[id], queue, now)
  }

  lemma OneDue(s: Table, id: int, queue: string, now: int)
    requires id in s.tasks && Due(s.tasks[id], queue, now)
    ensures !NoneDue(s, queue, now)
  {
  }

  lemma PickIsFirst(r: Table, queue: string, now: int) returns (k: nat)
    requires forall id :: id in r.tasks ==> id in r.order
    ensures var pick := Pick(r.tasks, r.order, queue, now);
      && (pick.None? <==> NoneDue(r, queue, now))
      && (pick.Some? ==> FirstChoice(r, k, queue, now) && pick == Some(r.order[k]))
  {
    k := PickLeads(r.tasks, r.order, queue, now);
    var pick := Pick(r.tasks, r.order, queue, now);
    if pick.None? {
      forall id | id in r.tasks ensures !Due(r.tasks[id], queue, now) {
        assert id in r.order && !Eligible(r.tasks[id], queue, now);
      }
    } else {
      FirstDue(r, k, queue, now);
      OneDue(r, r.order[k], queue, now);
    }
  }

  /** The lease as the worker gets it. */
  predicate HandsOut(o: Outcome, r: Table, id: int, worker: string, seconds: int, now: int) {
    && id in r.tasks
    && var t := r.tasks[id].(status := Leased, worker := Some(worker), leasedUntil := Some(now + seconds),
                             heartbeatAt := Some(now), token := r.tasks[id].token + 1);
       o == Outcome(r.(tasks := r.tasks[id := t]), Ok(Leasing(id, t)))
  }

  lemma FirstIsLeased(r: Table, queue: string, worker: string, seconds: int, now: int, choice: Option<int>)
    requires forall id :: id in r.tasks ==> id in r.order
    ensures var o := LeasedFrom(InMemory, r, queue, worker, seconds, now, choice);
      && (o == Outcome(r, Ok(Idle)) <==> NoneDue(r, queue, now))
      && (o != Outcome(r, Ok(Idle)) ==> exists k ::
            FirstChoice(r, k, queue, now) && HandsOut(o, r, r.order[k], worker, seconds, now))
  {
    var k := PickIsFirst(r, queue, now);
    var o := LeasedFrom(InMemory, r, queue, worker, seconds, now, choice);
    if Pick(r.tasks, r.order, queue, now).Some? {
      assert HandsOut(o, r, r.order[k], worker, seconds, now);
    }
  }

  /** In memory, leasing takes the due task of highest priority, the oldest among equals, and takes none exactly when
      none is due after expired leases were returned. */
  lemma LeaseTakesFirst(s: Table, queue: string, worker: string, seconds: int, now: int, reapAt: int,
                        choice: Option<int>)
    requires Sound(InMemory, s)
    ensures var r := AllReaped(InMemory, s, reapAt, Some(queue));
      var o := Step(InMemory, s, Lease(queue, worker, seconds, now, reapAt, choice));
      && (o == Outcome(r, Ok(Idle)) <==> NoneDue(r, queue, now))
      && (o != Outcome(r, Ok(Idle)) ==> exists k ::
            FirstChoice(r, k, queue, now) && HandsOut(o, r, r.order[k], worker, seconds, now))
  {
    var r := AllReaped(InMemory, s, reapAt, Some(queue));
    forall id | id in r.tasks ensures id in r.order {
      assert TaskOk(InMemory, s, id);
    }
    FirstIsLeased(r, queue, worker, seconds, now, choice);
  }

  /** A durable backend leases what its own order and quotas chose, exactly if that is waiting, its time has come and,
      in SQL, it is in the queue asked for; otherwise nothing. */
  lemma LeaseTakesChoice(b: Backend, s: Table, queue: string, worker: string, seconds: int, now: int, reapAt: int,
                         choice: Option<int>)
    requires Durable(b)
    ensures var r := AllReaped(b, s, reapAt, Some(queue));
      var o := Step(b, s, Lease(queue, worker, seconds, now, reapAt, choice));
      if choice.Some? && choice.value in r.tasks && r.tasks[choice.value].status == Queued
         && (r.tasks[choice.value].scheduledAt.Some? ==> r.tasks[choice.value].scheduledAt.value <= now)
         && (b.Sql? ==> r.tasks[choice.value].queue == queue)
      then HandsOut(o, r, choice.value, worker, seconds, now)
      else o == Outcome(r, Ok(Idle))
  {
  }

  // ---- Which of two submissions is leased first ----

  /** The submission still waits as it came in. */
  predicate Waits(s: Table, id: int, sub: Submission, at: int) {
    && id in s.tasks && id in s.order
    && var t := s.tasks[id];
    && t.status == Queued && t.worker.None? && t.queue == sub.queue && t.priority == sub.priority
    && t.scheduledAt == sub.scheduledAt && t.createdAt == at
  }

  lemma EnqueuedWaits(s: Table, sub: Submission, at: int, id: int)
    requires Sound(InMemory, s) && Enqueues(InMemory, s, sub, at, Step(InMemory, s, Enqueue(sub, at)).table, id)
    ensures Waits(Step(InMemory, s, Enqueue(sub, at)).table, id, sub, at)
    ensures Sound(InMemory, Step(InMemory, s, Enqueue(sub, at)).table)
  {
    var s1 := Step(InMemory, s, Enqueue(sub, at)).table;
    forall i ensures TaskOk(InMemory, s1, i) {
      StepSound(InMemory, s, Enqueue(sub, at), i);
    }
    assert TaskOk(InMemory, s1, id);
  }

  /** Nobody holds it, so only a lease, a cancellation or submitting it again changes that. */
  lemma KeepsWaiting(s: Table, op: Op, id: int, sub: Submission, at: int)
    requires Waits(s, id, sub, at) && !Resubmits(InMemory, s, op, id) && op != Cancel(id)
    requires !LeasesTask(InMemory, s, op, id)
    ensures Waits(Step(InMemory, s, op).table, id, sub, at)
  {
    StepAt(InMemory, s, op, id);
  }

  /** A lease of the queue does not pass over a task that is due and comes first. */
  lemma LeasePrefers(s: Table, op: Op, high: int, sub: Submission, at: int, low: int)
    requires Sound(InMemory, s) && Waits(s, high, sub, at) && low in s.tasks && op.Lease?
    requires sub.queue == s.tasks[low].queue && (sub.scheduledAt.Some? ==> sub.scheduledAt.value <= op.now)
    requires sub.priority > s.tasks[low].priority
          || (sub.priority == s.tasks[low].priority && at < s.tasks[low].createdAt)
    ensures !LeasesTask(InMemory, s, op, low)
  {
    var r := AllReaped(InMemory, s, op.reapAt, Some(op.queue));
    assert r.tasks[high] == s.tasks[high] && Eligible(r.tasks[high], sub.queue, op.now);
    if LeasesTask(InMemory, s, op, low) {
      StepAt(InMemory, s, op, low);
      assert Pick(r.tasks, r.order, op.queue, op.now) == Some(low);
      assert Before(r.tasks[high], r.tasks[low]);
    }
  }

  /** Neither submitted again nor cancelled, and due at every lease of the run. */
  predicate LeftAlone(ops: seq<Op>, id: int, sub: Submission) {
    && NeverNamed(InMemory, ops, id)
    && (forall i :: 0 <= i < |ops| ==> ops[i] != Cancel(id))
    && (forall i :: 0 <= i < |ops| && ops[i].Lease? && sub.scheduledAt.Some? ==> sub.scheduledAt.value <= ops[i].now)
  }

  /** As long as the higher of two waiting tasks has not been leased, the lower has not been either. */
  lemma {:induction false} HigherFirst(s: Table, ops: seq<Op>, high: int, sub: Submission, at: int, low: int)
    requires Sound(InMemory, s) && Waits(s, high, sub, at) && low in s.tasks && sub.queue == s.tasks[low].queue
    requires sub.priority > s.tasks[low].priority
          || (sub.priority == s.tasks[low].priority && at < s.tasks[low].createdAt)
    requires LeftAlone(ops, high, sub) && NeverNamed(InMemory, ops, low)
    ensures LeaseCount(InMemory, s, ops, high) == 0 ==>
      Waits(Run(InMemory, s, ops), high, sub, at) && LeaseCount(InMemory, s, ops, low) == 0
  {
    if ops != [] {
      var init, op := ops[..|ops| - 1], ops[|ops| - 1];
      HigherFirst(s, init, high, sub, at, low);
      if LeaseCount(InMemory, s, ops, high) == 0 {
        var r := Run(InMemory, s, init);
        RunSound(InMemory, s, init);
        RunProgress(InMemory, s, init, low);
        ResubmissionExact(InMemory, r, op, high);
        KeepsWaiting(r, op, high, sub, at);
        if op.Lease? {
          LeasePrefers(r, op, high, sub, at, low);
        }
      }
    }
  }

  /** Comes first: the higher priority, or at the same priority the earlier submission. */
  predicate Precedes(a: Submission, at: int, b: Submission, bt: int) {
    a.priority > b.priority || (a.priority == b.priority && at < bt)
  }

  /** Of two submissions to one queue, both due, the one of higher priority is leased first, and the earlier one if
      they are equal: over any run, the other is leased only if it has been. */
  lemma SubmissionsLeasedInOrder(s: Table, a: Submission, at: int, b: Submission, bt: int, ops: seq<Op>)
    requires Sound(InMemory, s) && a.queue == b.queue
    ensures var s1 := Step(InMemory, s, Enqueue(a, at));
      var s2 := Step(InMemory, s1.table, Enqueue(b, bt));
      && s1.reply.Ok? && s1.reply.value.Enqueued? && s2.reply.Ok? && s2.reply.value.Enqueued?
      && var x, y := s1.reply.value.id, s2.reply.value.id;
      x != y && LeftAlone(ops, x, a) && LeftAlone(ops, y, b) ==>
        && (Precedes(a, at, b, bt) && LeaseCount(InMemory, s2.table, ops, x) == 0 ==>
              LeaseCount(InMemory, s2.table, ops, y) == 0)
        && (Precedes(b, bt, a, at) && LeaseCount(InMemory, s2.table, ops, y) == 0 ==>
              LeaseCount(InMemory, s2.table, ops, x) == 0)
  {
    EnqueueExact(InMemory, s, a, at);
    var s1 := Step(InMemory, s, Enqueue(a, at));
    var x := s1.reply.value.id;
    EnqueuedWaits(s, a, at, x);
    EnqueueExact(InMemory, s1.table, b, bt);
    var s2 := Step(InMemory, s1.table, Enqueue(b, bt));
    var y := s2.reply.value.id;
    EnqueuedWaits(s1.table, b, bt, y);
    if x != y && LeftAlone(ops, x, a) && LeftAlone(ops, y, b) {
      assert Waits(s2.table, x, a, at);
      if Precedes(a, at, b, bt) {
        HigherFirst(s2.table, ops, x, a, at, y);
      }
      if Precedes(b, bt, a, at) {
        HigherFirst(s2.table, ops, y, b, bt, x);
      }
    }
  }

  predicate SameLease(t: Task, u: Task) {
    Held(u) && u.worker == t.worker && u.token == t.token && u.leasedUntil == t.leasedUntil && u.queue == t.queue
  }

  predicate ReapsLease(b: Backend, t: Task, reapAt: int, only: Option<string>) {
    && t.leasedUntil.Some? && t.leasedUntil.value < reapAt
    && (b.Redis? ==> (only.Some? && t.queue == only.value) || (only.None? && t.queue == "default"))
  }

  /** What a reap leaves of a task: an expired lease is taken back, and it waits again, save that in the durable
      backends a running one loses an attempt, or dies of it. */
  predicate ReapFits(b: Backend, t: Task, u: Task, reapAt: int, only: Option<string>) {
    if !(t.status in {Leased, Running} && ReapsLease(b, t, reapAt, only)) then u == t
    else
      && u == t.(status := u.status, attempt := u.attempt, worker := None, leasedUntil := None)
      && if b.InMemory? || t.status == Leased then u.status == Queued && u.attempt == t.attempt
         else if t.maxAttempts - t.attempt <= 1 then u.status == DeadLetter && u.attempt == t.attempt
         else u.status == Queued && u.attempt == t.attempt + 1
  }

  lemma ReapExact(b: Backend, s: Table, reapAt: int, only: Option<string>)
    ensures var o := Step(b, s, Reap(reapAt, only));
      && o.reply == Ok(Done) && o.table == s.(tasks := o.table.tasks) && o.table.tasks.Keys == s.tasks.Keys
      && forall id :: id in s.tasks ==> ReapFits(b, s.tasks[id], o.table.tasks[id], reapAt, only)
  {
  }

  /** What an operation has to be, or not to be, to leave the lease on a task alone: only the holder, under its token,
      can extend or end it; anyone can cancel; and a reap, of its own or before a lease, ends it once it has run
      out. */
  predicate KeepsLease(b: Backend, t: Task, op: Op, id: int, resubmits: bool) {
    match op
    case Enqueue(_, _) => !resubmits
    case Lease(queue, _, _, _, reapAt, _) => !ReapsLease(b, t, reapAt, Some(queue))
    case Reap(reapAt, only) => !ReapsLease(b, t, reapAt, only)
    case MarkRunning(_, _, _) => true
    case Heartbeat(i, worker, seconds, now) =>
      i == id && t.worker == Some(worker) ==> t.leasedUntil == Some(now + seconds)
    case Complete(i, worker, token) =>
      i == id && t.worker == Some(worker) && t.token == token ==> b.InMemory? && t.status.Leased?
    case Fail(i, worker, token) => !(i == id && t.worker == Some(worker) && t.token == token)
    case Cancel(i) => i != id
  }

  lemma TaskKeepsLease(b: Backend, t: Task, op: Op, id: int, leased: bool)
    requires Held(t) && t.leasedUntil.Some? && !op.Enqueue? && (leased ==> MayLease(b, t, op))
    ensures SameLease(t, TaskAfter(b, t, op, id, leased)) <==> KeepsLease(b, t, op, id, false)
  {
  }

  /** One operation leaves the lease on a task alone exactly when it is one of those. */
  lemma LeaseKeptExactly(b: Backend, s: Table, op: Op, id: int)
    requires id in s.tasks && Held(s.tasks[id]) && s.tasks[id].leasedUntil.Some?
    ensures id in Step(b, s, op).table.tasks
    ensures SameLease(s.tasks[id], Step(b, s, op).table.tasks[id])
       <==> KeepsLease(b, s.tasks[id], op, id, Resubmits(b, s, op, id))
  {
    if !Resubmits(b, s, op, id) {
      StepAt(b, s, op, id);
      if !op.Enqueue? {
        TaskKeepsLease(b, s.tasks[id], op, id, LeasesTask(b, s, op, id));
      }
    }
  }

  /** Operations that leave a lease alone at any time while it runs: others' leases and reaps no later than its end
      (or, in Redis, of other queues), heartbeats of other workers, completions and failures under another worker or
      token, starting this task, and all work on other tasks. */
  predicate Undisturbing(b: Backend, op: Op, id: int, t: Task) {
    match op
    case Enqueue(_, _) => !Names(b, op, id)
    case Lease(queue, _, _, _, reapAt, _) => !ReapsLease(b, t, reapAt, Some(queue))
    case Reap(reapAt, only) => !ReapsLease(b, t, reapAt, only)
    case MarkRunning(_, _, _) => true
    case Heartbeat(i, worker, _, _) => i != id || t.worker != Some(worker)
    case Complete(i, worker, token) => i != id || t.worker != Some(worker) || t.token != token
    case Fail(i, worker, token) => i != id || t.worker != Some(worker) || t.token != token
    case Cancel(i) => i != id
  }

  lemma UndisturbingKeeps(b: Backend, t: Task, u: Task, op: Op, id: int)
    requires Held(t) && SameLease(t, u) && Undisturbing(b, op, id, t)
    ensures KeepsLease(b, u, op, id, false)
  {
  }

  /** No one takes a task over before its lease runs out, whatever other workers and holders of older tokens try. */
  lemma {:induction false} LeaseIsExclusive(b: Backend, s: Table, ops: seq<Op>, id: int)
    requires Sound(b, s) && id in s.tasks && OutOfReach(b, s, id)
    requires Held(s.tasks[id]) && s.tasks[id].leasedUntil.Some?
    requires forall i :: 0 <= i < |ops| ==> Undisturbing(b, ops[i], id, s.tasks[id])
    ensures id in Run(b, s, ops).tasks && SameLease(s.tasks[id], Run(b, s, ops).tasks[id])
    ensures OutOfReach(b, Run(b, s, ops), id)
  {
    if ops != [] {
      var init, op := ops[..|ops| - 1], ops[|ops| - 1];
      LeaseIsExclusive(b, s, init, id);
      RunSound(b, s, init);
      ResubmissionExact(b, Run(b, s, init), op, id);
      UndisturbingKeeps(b, s.tasks[id], Run(b, s, init).tasks[id], op, id);
      LeaseKeptExactly(b, Run(b, s, init), op, id);
    }
  }

  // ---- Attempts, counted over a run ----

  predicate FailsTask(b: Backend, s: Table, op: Op, id: int) {
    op.Fail? && op.id == id && Step(b, s, op).reply.Ok?
  }

  /** The operation reaps this task while it was running: its worker was lost. */
  predicate LosesRun(b: Backend, s: Table, op: Op, id: int) {
    && (op.Lease? || op.Reap?) && id in s.tasks
    && s.tasks[id].status.Running?
    && ReapsLease(b, s.tasks[id], op.reapAt, if op.Lease? then Some(op.queue) else op.only)
  }

  /** The operation costs this task an attempt: a failure does, and in the durable backends a lost run. */
  predicate Costs(b: Backend, s: Table, op: Op, id: int) {
    FailsTask(b, s, op, id) || (Durable(b) && LosesRun(b, s, op, id))
  }

  predicate Finishes(b: Backend, s: Table, op: Op, id: int) {
    && id in s.tasks && !Terminal(s.tasks[id].status)
    && id in Step(b, s, op).table.tasks && Terminal(Step(b, s, op).table.tasks[id].status)
  }

  function FailCount(b: Backend, s: Table, ops: seq<Op>, id: int): nat {
    if ops == [] then 0
    else
      var init := ops[..|ops| - 1];
      FailCount(b, s, init, id) + if FailsTask(b, Run(b, s, init), ops[|ops| - 1], id) then 1 else 0
  }

  function LostCount(b: Backend, s: Table, ops: seq<Op>, id: int): nat {
    if ops == [] then 0
    else
      var init := ops[..|ops| - 1];
      LostCount(b, s, init, id) + if LosesRun(b, Run(b, s, init), ops[|ops| - 1], id) then 1 else 0
  }

  function FinishCount(b: Backend, s: Table, ops: seq<Op>, id: int): nat {
    if ops == [] then 0
    else
      var init := ops[..|ops| - 1];
      FinishCount(b, s, init, id) + if Finishes(b, Run(b, s, init), ops[|ops| - 1], id) then 1 else 0
  }

  /** Attempts spent over a run. */
  function Spent(b: Backend, s: Table, ops: seq<Op>, id: int): nat {
    FailCount(b, s, ops, id) + if Durable(b) then LostCount(b, s, ops, id) else 0
  }

  /** The task t became u and spent n attempts on the way. */
  predicate Spends(t: Task, u: Task, n: nat) {
    && u.attempt == t.attempt + n - (if u.status.DeadLetter? && !t.status.DeadLetter? then 1 else 0)
    && (if (u.status.Succeeded? || u.status.Cancelled?) && !Terminal(t.status) then n < Remaining(t)
        else n + Remaining(u) == Remaining(t))
    && u.maxAttempts == t.maxAttempts
    && (Terminal(t.status) ==> u.status == t.status)
  }

  /** The same cost, read off this task. */
  predicate TaskCosts(b: Backend, t: Task, op: Op, id: int) {
    || (op.Fail? && op.id == id && Failed(b, t, op.worker, op.token).Ok?)
    || (Durable(b) && (op.Lease? || op.Reap?) && t.status.Running?
        && ReapsLease(b, t, op.reapAt, if op.Lease? then Some(op.queue) else op.only))
  }

  lemma TaskSpends(b: Backend, t: Task, op: Op, id: int, leased: bool)
    requires Settled(t) && (leased ==> MayLease(b, t, op))
    ensures Spends(t, TaskAfter(b, t, op, id, leased), if TaskCosts(b, t, op, id) then 1 else 0)
  {
  }

  lemma StepSpends(b: Backend, s: Table, op: Op, id: int)
    requires Sound(b, s) && id in s.tasks && !Resubmits(b, s, op, id)
    ensures id in Step(b, s, op).table.tasks
    ensures Spends(s.tasks[id], Step(b, s, op).table.tasks[id], if Costs(b, s, op, id) then 1 else 0)
  {
    assert TaskOk(b, s, id);
    StepAt(b, s, op, id);
    TaskSpends(b, s.tasks[id], op, id, LeasesTask(b, s, op, id));
    assert Costs(b, s, op, id) == TaskCosts(b, s.tasks[id], op, id);
  }

  lemma SpendsOn(t: Task, u: Task, v: Task, m: nat, n: nat)
    requires Spends(t, u, m) && Spends(u, v, n)
    ensures Spends(t, v, m + n)
  {
  }

  /** Every attempt is accounted for. Over any run in which this task is not submitted again, failures and, in the
      durable backends, runs lost to an expired lease are exactly the failures used up, as long as this task does not
      succeed and is not cancelled. So it ends as a dead letter exactly when they use up all it had. In memory lost
      runs cost nothing, however many there are. */
  lemma {:induction false} AttemptsExact(b: Backend, s: Table, ops: seq<Op>, id: int)
    requires Sound(b, s) && id in s.tasks && OutOfReach(b, s, id) && NeverNamed(b, ops, id)
    ensures id in Run(b, s, ops).tasks
    ensures Spends(s.tasks[id], Run(b, s, ops).tasks[id], Spent(b, s, ops, id))
    ensures Spent(b, s, ops, id) + Remaining(Run(b, s, ops).tasks[id]) <= Remaining(s.tasks[id])
    ensures !Terminal(s.tasks[id].status) ==>
      (Run(b, s, ops).tasks[id].status.DeadLetter? <==> Spent(b, s, ops, id) == Remaining(s.tasks[id]))
  {
    if ops != [] {
      var init, op := ops[..|ops| - 1], ops[|ops| - 1];
      AttemptsExact(b, s, init, id);
      RunProgress(b, s, init, id);
      RunSound(b, s, init);
      var r := Run(b, s, init);
      ResubmissionExact(b, r, op, id);
      StepSpends(b, r, op, id);
      var cost: nat := if Costs(b, r, op, id) then 1 else 0;
      SpendsOn(s.tasks[id], r.tasks[id], Step(b, r, op).table.tasks[id], Spent(b, s, init, id), cost);
    }
  }

  /** In memory no task dies, or moves on by an attempt, without a failure reported for it: lost runs are free. */
  lemma CrashesAreFree(s: Table, ops: seq<Op>, id: int)
    requires Sound(InMemory, s) && id in s.tasks && NeverNamed(InMemory, ops, id)
    requires FailCount(InMemory, s, ops, id) == 0
    ensures id in Run(InMemory, s, ops).tasks
    ensures Run(InMemory, s, ops).tasks[id].attempt == s.tasks[id].attempt
    ensures Run(InMemory, s, ops).tasks[id].status.DeadLetter? <==> s.tasks[id].status.DeadLetter?
  {
    AttemptsExact(InMemory, s, ops, id);
  }

  /** From the submission on: whatever happens to a freshly enqueued task, as long as its id is not submitted again, it
      is a dead letter exactly when failures and, in the durable backends, lost runs have cost it as many attempts as
      the submission left it, and at least one. */
  lemma SubmittedAttempts(b: Backend, s: Table, sub: Submission, at: int, ops: seq<Op>)
    requires Sound(b, s)
    ensures var o := Step(b, s, Enqueue(sub, at));
      && o.reply.Ok? && o.reply.value.Enqueued?
      && var id := o.reply.value.id;
      OutOfReach(b, o.table, id) && NeverNamed(b, ops, id) ==>
        && id in Run(b, o.table, ops).tasks
        && (Run(b, o.table, ops).tasks[id].status == DeadLetter
            <==>
            Spent(b, o.table, ops, id)
            == if sub.maxAttempts - sub.attempt > 1 then sub.maxAttempts - sub.attempt else 1)
  {
    var o := Step(b, s, Enqueue(sub, at));
    EnqueueExact(b, s, sub, at);
    forall i ensures TaskOk(b, o.table, i) {
      StepSound(b, s, Enqueue(sub, at), i);
    }
    if OutOfReach(b, o.table, o.reply.value.id) && NeverNamed(b, ops, o.reply.value.id) {
      AttemptsExact(b, o.table, ops, o.reply.value.id);
    }
  }

  /** Outcomes are unique: over any run a task reaches one (success, dead letter, cancellation) at most once. */
  lemma {:induction false} OneOutcome(b: Backend, s: Table, ops: seq<Op>, id: int)
    requires Sound(b, s) && id in s.tasks && OutOfReach(b, s, id) && NeverNamed(b, ops, id)
    ensures id in Run(b, s, ops).tasks
    ensures FinishCount(b, s, ops, id) <= 1
    ensures FinishCount(b, s, ops, id) == 1
       <==> !Terminal(s.tasks[id].status) && Terminal(Run(b, s, ops).tasks[id].status)
  {
    if ops != [] {
      var init, op := ops[..|ops| - 1], ops[|ops| - 1];
      OneOutcome(b, s, init, id);
      RunSound(b, s, init);
      RunProgress(b, s, init, id);
      ResubmissionExact(b, Run(b, s, init), op, id);
      StepProgress(b, Run(b, s, init), op, id);
    }
  }

  // ---- A worker that dies while running its task, over and over ----

  datatype Crash = Crash(worker: string, seconds: int, at: int)

  /** Lease this task, start it, and let the lease run out. */
  function CrashOps(t: Task, id: int, c: Crash): seq<Op> {
    [Lease(t.queue, c.worker, c.seconds, c.at, c.at, Some(id)), MarkRunning(id, c.worker, t.token + 1),
     Reap(c.at + c.seconds + 1, Some(t.queue))]
  }

  /** The only task of its queue, ready to go. */
  ghost predicate Alone(b: Backend, s: Table, id: int) {
    && Sound(b, s) && id in s.tasks && s.tasks[id].scheduledAt.None?
    && forall other :: other in s.tasks && other != id ==> s.tasks[other].queue != s.tasks[id].queue
  }

  lemma RunThree(b: Backend, s: Table, ops: seq<Op>)
    requires |ops| == 3
    ensures Run(b, s, ops) == Step(b, Step(b, Step(b, s, ops[0]).table, ops[1]).table, ops[2]).table
  {
    assert ops[..2][..1][..0] == [];
    assert ops[..2][..1] == ops[..1];
    assert Run(b, s, ops[..1]) == Step(b, s, ops[0]).table;
    assert Run(b, s, ops[..2]) == Step(b, Run(b, s, ops[..1]), ops[1]).table;
  }

  /** The one task of a queue is what a lease of that queue takes. */
  lemma LoneLease(b: Backend, s: Table, id: int, c: Crash)
    requires Alone(b, s, id) && s.tasks[id].status.Queued?
    ensures var t := s.tasks[id];
      var s1 := Step(b, s, CrashOps(t, id, c)[0]).table;
      Alone(b, s1, id) && s1.tasks[id] == Granted(t, c.worker, c.seconds, c.at)
  {
    var t, op := s.tasks[id], CrashOps(s.tasks[id], id, c)[0];
    assert TaskOk(b, s, id);
    var r := AllReaped(b, s, c.at, Some(t.queue));
    assert r.tasks[id] == t && Eligible(t, t.queue, c.at);
    forall other | other in r.tasks && Eligible(r.tasks[other], t.queue, c.at) ensures other == id {
      assert r.tasks[other].queue == s.tasks[other].queue;
    }
    assert id in r.order && Taken(b, r, t.queue, c.at, Some(id)) == Some(id);
    forall i ensures TaskOk(b, Step(b, s, op).table, i) {
      StepSound(b, s, op, i);
    }
  }

  /** Starting this task and letting its lease run out touch no other task's queue. */
  lemma StaysAlone(b: Backend, s: Table, op: Op, id: int)
    requires Alone(b, s, id) && !op.Enqueue?
    ensures Alone(b, Step(b, s, op).table, id)
  {
    var r := Step(b, s, op).table;
    forall i ensures TaskOk(b, r, i) {
      StepSound(b, s, op, i);
    }
    forall i | i in s.tasks
      ensures i in r.tasks && r.tasks[i].queue == s.tasks[i].queue && r.tasks[i].scheduledAt == s.tasks[i].scheduledAt
    {
      StepAt(b, s, op, i);
      KeepsPlace(b, s.tasks[i], op, i, LeasesTask(b, s, op, i));
    }
  }

  lemma KeepsPlace(b: Backend, t: Task, op: Op, id: int, leased: bool)
    ensures var u := TaskAfter(b, t, op, id, leased); u.queue == t.queue && u.scheduledAt == t.scheduledAt
  {
  }

  lemma CrashStarts(b: Backend, s: Table, id: int, c: Crash)
    requires Alone(b, s, id) && s.tasks[id].status.Queued?
    ensures var t, ops := s.tasks[id], CrashOps(s.tasks[id], id, c);
      var r := Step(b, Step(b, s, ops[0]).table, ops[1]).table;
      Alone(b, r, id) && r.tasks[id] == Granted(t, c.worker, c.seconds, c.at).(status := Running)
  {
    var ops := CrashOps(s.tasks[id], id, c);
    LoneLease(b, s, id, c);
    var s1 := Step(b, s, ops[0]).table;
    StaysAlone(b, s1, ops[1], id);
    StepAt(b, s1, ops[1], id);
  }

  lemma CrashEnds(b: Backend, s: Table, id: int, at: int)
    requires Alone(b, s, id)
    ensures var r := Step(b, s, Reap(at, Some(s.tasks[id].queue))).table;
      Alone(b, r, id) && r.tasks[id] == Reaped(b, s.tasks[id], at)
  {
    StaysAlone(b, s, Reap(at, Some(s.tasks[id].queue)), id);
  }

  lemma OneCrash(b: Backend, s: Table, id: int, c: Crash)
    requires Alone(b, s, id) && s.tasks[id].status.Queued?
    ensures var t := s.tasks[id];
      var r := Run(b, s, CrashOps(t, id, c));
      && Alone(b, r, id) && r.tasks[id].maxAttempts == t.maxAttempts
      && (b.InMemory? ==> r.tasks[id].status.Queued? && r.tasks[id].attempt == t.attempt)
      && (Durable(b) && OutOfAttempts(t) ==> r.tasks[id].status.DeadLetter?)
      && (Durable(b) && !OutOfAttempts(t) ==> r.tasks[id].status.Queued? && r.tasks[id].attempt == t.attempt + 1)
  {
    var ops := CrashOps(s.tasks[id], id, c);
    CrashStarts(b, s, id, c);
    CrashEnds(b, Step(b, Step(b, s, ops[0]).table, ops[1]).table, id, c.at + c.seconds + 1);
    RunThree(b, s, ops);
  }

  /** A schedule of crashes, with any workers, lease lengths and times. */
  function AfterCrashes(b: Backend, s: Table, id: int, crashes: seq<Crash>): Table {
    if crashes == [] then s
    else
      var r := AfterCrashes(b, s, id, crashes[..|crashes| - 1]);
      if id in r.tasks then Run(b, r, CrashOps(r.tasks[id], id, crashes[|crashes| - 1])) else r
  }

  /** In memory every schedule of crashes leaves this task waiting with all its attempts: it is retried for ever. */
  lemma {:induction false} InMemoryCrashLoop(s: Table, id: int, crashes: seq<Crash>)
    requires Alone(InMemory, s, id) && s.tasks[id].status.Queued?
    ensures var r := AfterCrashes(InMemory, s, id, crashes);
      Alone(InMemory, r, id) && r.tasks[id].status.Queued? && r.tasks[id].attempt == s.tasks[id].attempt
  {
    if crashes != [] {
      InMemoryCrashLoop(s, id, crashes[..|crashes| - 1]);
      OneCrash(InMemory, AfterCrashes(InMemory, s, id, crashes[..|crashes| - 1]), id, crashes[|crashes| - 1]);
    }
  }

  lemma StaysFinished(b: Backend, s: Table, op: Op, id: int)
    requires Alone(b, s, id) && Terminal(s.tasks[id].status) && !op.Enqueue?
    ensures Alone(b, Step(b, s, op).table, id) && Step(b, s, op).table.tasks[id].status == s.tasks[id].status
  {
    StaysAlone(b, s, op, id);
    StepProgress(b, s, op, id);
  }

  lemma CrashOfFinished(b: Backend, s: Table, id: int, c: Crash)
    requires Alone(b, s, id) && Terminal(s.tasks[id].status)
    ensures var r := Run(b, s, CrashOps(s.tasks[id], id, c));
      Alone(b, r, id) && r.tasks[id].status == s.tasks[id].status
  {
    var ops := CrashOps(s.tasks[id], id, c);
    StaysFinished(b, s, ops[0], id);
    var s1 := Step(b, s, ops[0]).table;
    StaysFinished(b, s1, ops[1], id);
    StaysFinished(b, Step(b, s1, ops[1]).table, ops[2], id);
    RunThree(b, s, ops);
  }

  /** The durable backends give it up after exactly as many crashes as it has failures left. */
  lemma {:induction false} DurableCrashLoop(b: Backend, s: Table, id: int, crashes: seq<Crash>)
    requires Durable(b) && Alone(b, s, id) && s.tasks[id].status.Queued?
    ensures var r, t := AfterCrashes(b, s, id, crashes), s.tasks[id];
      && Alone(b, r, id)
      && (r.tasks[id].status.DeadLetter? <==> |crashes| >= Remaining(t))
      && (|crashes| < Remaining(t) ==>
            && r.tasks[id].status.Queued? && r.tasks[id].attempt == t.attempt + |crashes|
            && r.tasks[id].maxAttempts == t.maxAttempts)
  {
    if crashes != [] {
      var init := crashes[..|crashes| - 1];
      DurableCrashLoop(b, s, id, init);
      var r := AfterCrashes(b, s, id, init);
      if r.tasks[id].status.Queued? {
        OneCrash(b, r, id, crashes[|crashes| - 1]);
      } else {
        CrashOfFinished(b, r, id, crashes[|crashes| - 1]);
      }
    }
  }

  class InMemoryTaskBackend {
    var tasks: map<int, Task>
    var order: seq<int>
    var deadLetters: seq<int>
    var nextId: int

    function View(): Table
      reads this
    {
      Table(tasks, order, deadLetters, nextId)
    }

    ghost predicate Valid()
      reads this
    {
      Sound(InMemory, View()) && forall id <- order :: id in tasks
    }

    constructor ()
      ensures Valid() && View() == Table(map[], [], [], 1)
    {
      tasks, order, deadLetters, nextId := map[], [], [], 1;
    }

    method EnqueueTask(sub: Submission, at: int) returns (id: int)
      requires Valid()
      modifies this
      ensures Enqueues(InMemory, old(View()), sub, at, View(), id)
      ensures Valid() && Outcome(View(), Ok(Enqueued(id))) == Step(InMemory, old(View()), Enqueue(sub, at))
    {
      ghost var before := View();
      EnqueueExact(InMemory, before, sub, at);
      id := if sub.taskId.None? || sub.taskId.value == 0 then nextId else sub.taskId.value;
      if sub.taskId.None? {
        nextId := nextId + 1;
      } else {
        nextId := Max(nextId, id + 1);
      }
      if id !in tasks {
        order := order + [id];
      }
      tasks := tasks[id := Task(sub.queue, sub.priority, Queued, sub.attempt, sub.maxAttempts, None, None, None,
                                sub.scheduledAt, 0, at)];
      forall i ensures TaskOk(InMemory, View(), i) {
        StepSound(InMemory, before, Enqueue(sub, at), i);
      }
    }

    /** The reaper's loop over the table. */
    method ReapExpired(now: int)
      requires Valid()
      modifies this`tasks
      ensures Valid() && View() == AllReaped(InMemory, old(View()), now, None)
    {
      ghost var before := View();
      for k := 0 to |order|
        invariant tasks.Keys == before.tasks.Keys
        invariant forall id :: id in tasks ==>
          tasks[id] == if id in order[..k] then Reaped(InMemory, before.tasks[id], now) else before.tasks[id]
      {
        var id := order[k];
        var t := tasks[id];
        assert order[..k + 1] == order[..k] + [id];
        if Held(t) && t.leasedUntil.Some? && t.leasedUntil.value < now {
          assert t.status.Leased? ==> CanGo(Leased, Queued);
          assert t.status.Running? ==> CanGo(Running, Retrying) && CanGo(Retrying, Queued);
          tasks := tasks[id := t.(status := Queued, worker := None, leasedUntil := None)];
        }
      }
      assert order[..|order|] == order;
      forall id | id in tasks ensures tasks[id] == Reaped(InMemory, before.tasks[id], now) {
        assert TaskOk(InMemory, before, id);
      }
      ghost var r := AllReaped(InMemory, before, now, None).tasks;
      assert forall id :: id in r ==> r[id] == tasks[id];
      assert tasks == r;
      forall id ensures TaskOk(InMemory, View(), id) {
        StepSound(InMemory, before, Reap(now, None), id);
      }
    }

    method LeaseNext(queue: string, worker: string, seconds: int, now: int, reapAt: int)
      returns (lease: Option<(int, Task)>)
      requires Valid()
      modifies this`tasks
      ensures Valid()
      ensures Outcome(View(), if lease.None? then Ok(Idle) else Ok(Leasing(lease.value.0, lease.value.1)))
           == Step(InMemory, old(View()), Lease(queue, worker, seconds, now, reapAt, None))
    {
      ghost var before := View();
      ReapExpired(reapAt);
      ReachesAll(before, reapAt, Some(queue));
      var pick := Pick(tasks, order, queue, now);
      if pick.None? {
        lease := None;
      } else {
        var t := tasks[pick.value];
        assert CanGo(t.status, Leased);
        t := t.(status := Leased, worker := Some(worker), leasedUntil := Some(now + seconds), heartbeatAt := Some(now),
                token := t.token + 1);
        tasks := tasks[pick.value := t];
        lease := Some((pick.value, t));
      }
      forall id ensures TaskOk(InMemory, View(), id) {
        StepSound(InMemory, before, Lease(queue, worker, seconds, now, reapAt, None), id);
      }
    }

    method FailTask(id: int, worker: string, token: int) returns (r: Result<Reply, Error>)
      requires Valid()
      modifies this`tasks, this`deadLetters
      ensures Valid() && Outcome(View(), r) == Step(InMemory, old(View()), Fail(id, worker, token))
    {
      ghost var before := View();
      if id !in tasks {
        return Err(NotFound);
      }
      var t := tasks[id];
      if t.token != token {
        return Err(StaleToken);
      }
      if t.worker != Some(worker) {
        return Err(NotOwner);
      }
      if t.status.Leased? {
        assert CanGo(Leased, Running);
        t := t.(status := Running);
      }
      if !CanGo(t.status, Failing) {
        return Err(BadTransition);
      }
      if t.attempt + 1 >= t.maxAttempts {
        assert CanGo(Failing, DeadLetter);
        t := t.(status := DeadLetter);
        deadLetters := deadLetters + [id];
      } else {
        assert CanGo(Failing, Retrying) && CanGo(Retrying, Queued);
        t := t.(attempt := t.attempt + 1, status := Queued, worker := None, leasedUntil := None);
      }
      tasks := tasks[id := t];
      r := Ok(Done);
      forall i ensures TaskOk(InMemory, View(), i) {
        StepSound(InMemory, before, Fail(id, worker, token), i);
      }
    }

    method CompleteTask(id: int, worker: string, token: int) returns (r: Result<Reply, Error>)
      requires Valid()
      modifies this`tasks
      ensures Valid() && Outcome(View(), r) == Step(InMemory, old(View()), Complete(id, worker, token))
    {
      ghost var before := View();
      if id !in tasks {
        return Err(NotFound);
      }
      var t := tasks[id];
      if t.token != token {
        return Err(StaleToken);
      }
      if t.worker != Some(worker) {
        return Err(NotOwner);
      }
      if !CanGo(t.status, Succeeded) {
        return Err(BadTransition);
      }
      tasks := tasks[id := t.(status := Succeeded)];
      r := Ok(Done);
      forall i ensures TaskOk(InMemory, View(), i) {
        StepSound(InMemory, before, Complete(id, worker, token), i);
      }
    }

    method HeartbeatTask(id: int, worker: string, seconds: int, now: int) returns (r: Result<Reply, Error>)
      requires Valid()
      modifies this`tasks
      ensures Valid() && Outcome(View(), r) == Step(InMemory, old(View()), Heartbeat(id, worker, seconds, now))
    {
      ghost var before := View();
      if id !in tasks {
        return Err(NotFound);
      }
      var t := tasks[id];
      if t.worker != Some(worker) {
        return Err(NotOwner);
      }
      tasks := tasks[id := t.(heartbeatAt := Some(now), leasedUntil := Some(now + seconds))];
      r := Ok(Done);
      forall i ensures TaskOk(InMemory, View(), i) {
        StepSound(InMemory, before, Heartbeat(id, worker, seconds, now), i);
      }
    }

    method StartTask(id: int, worker: string, token: int) returns (r: Result<Reply, Error>)
      requires Valid()
      modifies this`tasks
      ensures Valid() && Outcome(View(), r) == Step(InMemory, old(View()), MarkRunning(id, worker, token))
    {
      ghost var before := View();
      if id !in tasks {
        return Err(NotFound);
      }
      var t := tasks[id];
      if t.worker != Some(worker) {
        return Err(NotOwner);
      }
      if t.token != token {
        return Err(StaleToken);
      }
      if !CanGo(t.status, Running) {
        return Err(BadTransition);
      }
      tasks := tasks[id := t.(status := Running)];
      r := Ok(Done);
      forall i ensures TaskOk(InMemory, View(), i) {
        StepSound(InMemory, before, MarkRunning(id, worker, token), i);
      }
    }

    method CancelTask(id: int) returns (r: Result<Reply, Error>)
      requires Valid()
      modifies this`tasks
      ensures Valid() && Outcome(View(), r) == Step(InMemory, old(View()), Cancel(id))
    {
      ghost var before := View();
      if id !in tasks {
        return Err(NotFound);
      }
      var t := tasks[id];
      if t.status.Leased? {
        t := t.(status := Running);
      }
      if !CanGo(t.status, Cancelled) {
        return Err(BadTransition);
      }
      tasks := tasks[id := t.(status := Cancelled)];
      r := Ok(Done);
      forall i ensures TaskOk(InMemory, View(), i) {
        StepSound(InMemory, before, Cancel(id), i);
      }
    }
  }
}
