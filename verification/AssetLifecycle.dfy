/** catalog/asset_lifecycle.py: versions of assets going through validation, approval, publication, deprecation,
    archiving and rollback. One table holds the versions of one asset kind, in version-history order. */
module AssetLifecycle {
  import opened Common
  import opened DecimalText
  import opened Sums
  import Refs = AssetReferences

  datatype Status = Draft | Validated | Approved | Published | Deprecated | Archived | Other(name: string)

  datatype Action = Validating | Approving | Publishing | Deprecating | Archiving | RollingBack

  datatype Entry = Entry(action: Action, actor: Option<string>, reason: Option<string>, from: Status, to: Status)

  datatype Validation = Passed | NotPassed

  /** column is the status column that only catalog items have; recorded, history and validation live in the
      asset's metadata. */
  datatype Version = Version(
    id: int, tenantId: int, projectId: Option<int>, name: string, version: string, assetType: Option<string>,
    deleted: bool, column: Option<Status>, recorded: Option<Status>, history: seq<Entry>,
    validation: Option<Validation>)

  type Table = seq<Version>

  datatype Error =
    | NoSuchAsset | ValidationRequired | ApprovalRequired | InUse | StillReferenced
    | TargetNotFound | TargetInvalid | TypeError

  /** A document that may mention assets: a deployment's reference list or an agent version's manifest. */
  datatype Document = Document(isDeployment: bool, status: string, content: Refs.Json)

  datatype Op =
    | Validate(at: nat, passed: bool)
    | Approve(at: nat)
    | Publish(at: nat)
    | Deprecate(at: nat, documents: seq<Document>)
    | Archive(at: nat, documents: seq<Document>)
    | Rollback(at: nat, target: Option<string>)

  /** Who asked, and why. */
  datatype Request = Request(op: Op, actor: Option<string>, reason: Option<string>)

  function StatusOf(v: Version): Status {
    if v.column.Some? then v.column.value else if v.recorded.Some? then v.recorded.value else Draft
  }

  /** _set_lifecycle: the recorded status, if any, is what the entry starts from. */
  function SetLifecycle(v: Version, to: Status, action: Action, actor: Option<string>,
                        reason: Option<string>): Version {
    var from := if v.recorded.Some? then v.recorded.value else StatusOf(v);
    v.(recorded := Some(to), history := v.history + [Entry(action, actor, reason, from, to)],
       column := if v.column.Some? then Some(to) else None)
  }

  predicate SameGroup(v: Version, w: Version) {
    && v.tenantId == w.tenantId && v.projectId == w.projectId && v.name == w.name && v.assetType == w.assetType
    && !w.deleted
  }

  predicate Usable(t: Table, at: nat) {
    at < |t| && !t[at].deleted
  }

  function Superseded(v: Version, actor: Option<string>, successor: int): Version {
    SetLifecycle(v, Deprecated, Deprecating, actor, Some("superseded_by:" + IntText(successor)))
  }

  /** Publishing one version deprecates the published ones beside it. */
  function PublishedTo(t: Table, at: nat, r: Request, k: nat): Version
    requires at < |t| && k < |t|
  {
    if k == at then SetLifecycle(t[at], Published, Publishing, r.actor, r.reason)
    else if SameGroup(t[at], t[k]) && StatusOf(t[k]).Published? then Superseded(t[k], r.actor, t[at].id)
    else t[k]
  }

  function AllPublished(t: Table, at: nat, r: Request): Table
    requires at < |t|
  {
    seq(|t|, k requires 0 <= k < |t| => PublishedTo(t, at, r, k))
  }

  /** The first version of the group with this version string. */
  function FindVersion(t: Table, at: nat, version: string, k: nat): Option<nat>
    requires at < |t| && k <= |t|
    decreases |t| - k
  {
    if k == |t| then None
    else if SameGroup(t[at], t[k]) && t[k].version == version then Some(k)
    else FindVersion(t, at, version, k + 1)
  }

  /** The last version of the group other than this one. */
  function FindPrevious(t: Table, at: nat, k: nat): Option<nat>
    requires at < |t| && k <= |t|
  {
    if k == 0 then None
    else if SameGroup(t[at], t[k - 1]) && k - 1 != at then Some(k - 1)
    else FindPrevious(t, at, k - 1)
  }

  function RollbackTarget(t: Table, at: nat, target: Option<string>): Option<nat>
    requires at < |t|
  {
    if target.Some? && target.value != "" then FindVersion(t, at, target.value, 0) else FindPrevious(t, at, |t|)
  }

  function RefersTo(v: Version): Refs.Asset {
    Refs.Asset(v.name, v.version, v.assetType)
  }

  /** A deployment is in use unless it is a draft or stopped, an agent version unless it is a draft or archived. */
  predicate Active(d: Document) {
    d.status !in if d.isDeployment then {"draft", "stopped"} else {"draft", "archived"}
  }

  /** Does a document that counts mention the version? Raises if the search does, on any document. */
  function InUseBy(documents: seq<Document>, v: Version, deploymentsOnly: bool): Refs.Answer {
    if documents == [] then Refs.No
    else
      var d := documents[0];
      var found, rest := Refs.Search(d.content, RefersTo(v)), InUseBy(documents[1..], v, deploymentsOnly);
      if found.Raises? || rest.Raises? then Refs.Raises
      else if found.Yes? && Active(d) && (d.isDeployment || !deploymentsOnly) then Refs.Yes
      else rest
  }

  function Guarded(t: Table, at: nat, use: Refs.Answer, error: Error, to: Status, action: Action,
                   r: Request): Result<Table, Error>
    requires at < |t|
  {
    match use
    case Raises => Err(TypeError)
    case Yes => Err(error)
    case No => Ok(t[at := SetLifecycle(t[at], to, action, r.actor, r.reason)])
  }

  function Apply(t: Table, r: Request): Result<Table, Error> {
    if !Usable(t, r.op.at) then Err(NoSuchAsset)
    else
      var at, v := r.op.at, t[r.op.at];
      match r.op
      case Validate(_, passed) =>
        var v' := v.(validation := Some(if passed then Passed else NotPassed));
        Ok(t[at := SetLifecycle(v', if passed then Validated else StatusOf(v'), Validating, r.actor, r.reason)])
      case Approve(_) =>
        if v.validation != Some(Passed) then Err(ValidationRequired)
        else Ok(t[at := SetLifecycle(v, Approved, Approving, r.actor, r.reason)])
      case Publish(_) =>
        if !(StatusOf(v).Approved? || StatusOf(v).Published?) then Err(ApprovalRequired)
        else Ok(AllPublished(t, at, r))
      case Deprecate(_, documents) => Guarded(t, at, InUseBy(documents, v, true), InUse, Deprecated, Deprecating, r)
      case Archive(_, documents) =>
        Guarded(t, at, InUseBy(documents, v, false), StillReferenced, Archived, Archiving, r)
      case Rollback(_, target) =>
        (match RollbackTarget(t, at, target)
         case None => Err(TargetNotFound)
         case Some(k) =>
           if k >= |t| || k == at then Err(TargetInvalid)
           else Ok(t[at := SetLifecycle(v, Deprecated, RollingBack, r.actor, r.reason)]
                    [k := SetLifecycle(t[k], Published, Publishing, r.actor, r.reason)]))
  }

  /** A refused request changes nothing. */
  function Step(t: Table, r: Request): Table {
    var result := Apply(t, r);
    if result.Ok? then result.value else t
  }

  function Run(t: Table, rs: seq<Request>): Table {
    if rs == [] then t else Step(Run(t, rs[..|rs| - 1]), rs[|rs| - 1])
  }

  /** Versions of one asset: same tenant, project, name and type. */
  predicate Siblings(v: Version, w: Version) {
    v.tenantId == w.tenantId && v.projectId == w.projectId && v.name == w.name && v.assetType == w.assetType
  }

  lemma {:induction false} FindVersionFound(t: Table, at: nat, version: string, k: nat)
    requires at < |t| && k <= |t|
    ensures var r := FindVersion(t, at, version, k);
      && (r.Some? ==> k <= r.value < |t| && SameGroup(t[at], t[r.value]) && t[r.value].version == version)
      && (forall j :: k <= j < (if r.Some? then r.value else |t|) ==>
            !(SameGroup(t[at], t[j]) && t[j].version == version))
    decreases |t| - k
  {
    if k < |t| {
      FindVersionFound(t, at, version, k + 1);
    }
  }

  lemma {:induction false} FindPreviousFound(t: Table, at: nat, k: nat)
    requires at < |t| && k <= |t|
    ensures var r := FindPrevious(t, at, k);
      && (r.Some? ==> r.value < k && r.value != at && SameGroup(t[at], t[r.value]))
      && (forall j :: (if r.Some? then r.value else -1) < j < k ==> j == at || !SameGroup(t[at], t[j]))
  {
    if k > 0 {
      FindPreviousFound(t, at, k - 1);
    }
  }

  /** A rollback goes to the first version of the asset with the version string asked for, or, if none was asked for, to
      the last other version of it; deleted ones are passed over. It has no target exactly if there is none. */
  lemma TargetFound(t: Table, at: nat, target: Option<string>)
    requires at < |t|
    ensures var r := RollbackTarget(t, at, target);
      && (r.Some? ==> r.value < |t| && SameGroup(t[at], t[r.value]))
      && (r.Some? ==> Siblings(t[at], t[r.value]) && !t[r.value].deleted)
      && (if target.Some? && target.value != "" then
            && (r.Some? ==> t[r.value].version == target.value)
            && (forall j :: 0 <= j < (if r.Some? then r.value else |t|) ==>
                  !Siblings(t[at], t[j]) || t[j].deleted || t[j].version != target.value)
          else
            && (r.Some? ==> r.value != at)
            && (forall j :: (if r.Some? then r.value else -1) < j < |t| ==>
                  j == at || !Siblings(t[at], t[j]) || t[j].deleted))
  {
    if target.Some? && target.value != "" {
      FindVersionFound(t, at, target.value, 0);
    } else {
      FindPreviousFound(t, at, |t|);
    }
  }

  // ---- What one request does to one version ----

  predicate SameIdentity(v: Version, w: Version) {
    && v.id == w.id && v.tenantId == w.tenantId && v.projectId == w.projectId && v.name == w.name
    && v.version == w.version && v.assetType == w.assetType && v.deleted == w.deleted
    && (v.column.Some? <==> w.column.Some?)
  }

  /** Left alone, or moved once through _set_lifecycle (a validation may have been noted first). */
  ghost predicate Moved(v: Version, w: Version) {
    w == v || exists va, to, action, actor, reason :: w == SetLifecycle(v.(validation := va), to, action, actor, reason)
  }

  lemma StepAt(t: Table, r: Request, k: nat)
    requires k < |t|
    ensures |Step(t, r)| == |t|
    ensures Moved(t[k], Step(t, r)[k]) && SameIdentity(t[k], Step(t, r)[k])
  {
    var w := Step(t, r)[k];
    if Apply(t, r).Ok? && w != t[k] {
      var e := w.history[|w.history| - 1];
      assert w == SetLifecycle(t[k].(validation := w.validation), e.to, e.action, e.actor, e.reason);
    }
  }

  // ---- Publication is exclusive within a group ----

  predicate Live(v: Version) {
    !v.deleted && StatusOf(v).Published?
  }

  /** A successful publish leaves its version the only published one of its group, deprecates exactly the ones
      that were published, and touches nothing else. */
  lemma PublishExclusive(t: Table, r: Request)
    requires r.op.Publish? && Apply(t, r).Ok?
    ensures var t', at := Apply(t, r).value, r.op.at;
      && |t'| == |t| && Usable(t, at) && StatusOf(t'[at]).Published?
      && (forall k :: 0 <= k < |t| && k != at && Siblings(t[at], t[k]) && !t[k].deleted ==>
            !StatusOf(t'[k]).Published?)
      && (forall k :: 0 <= k < |t| && k != at && Siblings(t[at], t[k]) && !t[k].deleted && StatusOf(t[k]).Published? ==>
            StatusOf(t'[k]).Deprecated?)
      && (forall k :: 0 <= k < |t| && k != at ==>
            t'[k] == t[k] || (Siblings(t[at], t[k]) && !t[k].deleted && StatusOf(t[k]).Published?))
  {
  }

  /** Publishing is accepted exactly of an asset that is there and whose status, which catalog items hold in their
      column and the others in their metadata, is approved or published already. */
  lemma PublishAccepted(t: Table, r: Request)
    requires r.op.Publish?
    ensures var at := r.op.at;
      && (Apply(t, r) == Err(NoSuchAsset) <==> at >= |t| || t[at].deleted)
      && (Apply(t, r).Ok? <==>
            && at < |t| && !t[at].deleted
            && (if t[at].column.Some? then t[at].column else t[at].recorded) in {Some(Approved), Some(Published)})
      && (Apply(t, r).Err? && Apply(t, r) != Err(NoSuchAsset) ==> Apply(t, r) == Err(ApprovalRequired))
  {
  }

  predicate PairOk(t: Table, i: nat, j: nat)
    requires i < |t| && j < |t|
  {
    i != j && SameGroup(t[i], t[j]) ==> !(Live(t[i]) && Live(t[j]))
  }

  /** At most one published version per group. */
  ghost predicate OnePublished(t: Table) {
    forall i: nat, j: nat :: i < |t| && j < |t| ==> PairOk(t, i, j)
  }

  /** A rollback of a usable version to a different one while a third version of the group is published. */
  ghost predicate BypassesPublished(t: Table, r: Request) {
    && r.op.Rollback? && Usable(t, r.op.at)
    && var target := RollbackTarget(t, r.op.at, r.op.target);
       && target.Some? && target.value != r.op.at
       && exists p: nat :: p < |t| && Third(t, r.op.at, target.value, p)
  }

  predicate Third(t: Table, at: nat, target: nat, p: nat)
    requires at < |t| && p < |t|
  {
    p != at && p != target && SameGroup(t[at], t[p]) && Live(t[p])
  }

  lemma OtherRequestsKeepOne(t: Table, r: Request)
    requires OnePublished(t) && !r.op.Rollback?
    ensures OnePublished(Step(t, r))
  {
    var t' := Step(t, r);
    forall i: nat, j: nat | i < |t'| && j < |t'| ensures PairOk(t', i, j) {
      StepAt(t, r, i);
      StepAt(t, r, j);
      assert PairOk(t, i, j);
      if r.op.Publish? && Apply(t, r).Ok? {
        assert PairOk(t, r.op.at, i) && PairOk(t, r.op.at, j);
      }
    }
  }

  lemma RollbackKeepsOne(t: Table, r: Request)
    requires OnePublished(t) && r.op.Rollback? && !BypassesPublished(t, r)
    ensures OnePublished(Step(t, r))
  {
    var t' := Step(t, r);
    if Apply(t, r).Ok? {
      var at, k := r.op.at, RollbackTarget(t, r.op.at, r.op.target).value;
      TargetFound(t, at, r.op.target);
      forall i: nat, j: nat | i < |t'| && j < |t'| ensures PairOk(t', i, j) {
        assert PairOk(t, i, j);
        assert !Third(t, at, k, i) && !Third(t, at, k, j);
      }
    }
  }

  /** From a table with at most one published version per group, a request leaves such a table exactly when it is
      not a rollback past a third, published version. */
  lemma OnePublishedExactly(t: Table, r: Request)
    requires OnePublished(t)
    ensures OnePublished(Step(t, r)) <==> !BypassesPublished(t, r)
  {
    if BypassesPublished(t, r) {
      var at, k := r.op.at, RollbackTarget(t, r.op.at, r.op.target).value;
      TargetFound(t, at, r.op.target);
      var p: nat :| p < |t| && Third(t, at, k, p);
      assert !PairOk(Step(t, r), k, p);
    } else if r.op.Rollback? {
      RollbackKeepsOne(t, r);
    } else {
      OtherRequestsKeepOne(t, r);
    }
  }

  /** Every rollback of the run, if any, is asked of a version that is published at that moment. */
  predicate RollsBackPublished(t: Table, rs: seq<Request>) {
    rs == [] || (RollsBackPublished(t, rs[..|rs| - 1])
                 && var before, r := Run(t, rs[..|rs| - 1]), rs[|rs| - 1];
                    r.op.Rollback? && Usable(before, r.op.at) ==> StatusOf(before[r.op.at]).Published?)
  }

  lemma PublishedRollbackIsSafe(t: Table, r: Request)
    requires OnePublished(t)
    requires r.op.Rollback? && Usable(t, r.op.at) ==> StatusOf(t[r.op.at]).Published?
    ensures !BypassesPublished(t, r)
  {
    if r.op.Rollback? && Usable(t, r.op.at) && RollbackTarget(t, r.op.at, r.op.target).Some? {
      var at, k := r.op.at, RollbackTarget(t, r.op.at, r.op.target).value;
      forall p: nat | p < |t| ensures !Third(t, at, k, p) {
        assert PairOk(t, at, p);
      }
    }
  }

  /** So at most one version per group is published throughout every run that rolls back published versions only. */
  lemma {:induction false} OnePublishedInRuns(t: Table, rs: seq<Request>)
    requires OnePublished(t) && RollsBackPublished(t, rs)
    ensures OnePublished(Run(t, rs))
  {
    if rs != [] {
      var before, r := Run(t, rs[..|rs| - 1]), rs[|rs| - 1];
      OnePublishedInRuns(t, rs[..|rs| - 1]);
      PublishedRollbackIsSafe(before, r);
      OnePublishedExactly(before, r);
    }
  }

  // ---- The history is an unbroken chain ----

  predicate Linked(start: Status, history: seq<Entry>, k: nat)
    requires k < |history|
  {
    history[k].from == if k == 0 then start else history[k - 1].to
  }

  /** Each entry starts where the previous one ended, the first at the status before any lifecycle metadata; the
      last ends at the current status, which catalog items also hold in their column. */
  predicate Chained(start: Status, v: Version) {
    && (forall k :: 0 <= k < |v.history| ==> Linked(start, v.history, k))
    && (if v.history == [] then v.recorded.None? && StatusOf(v) == start
        else v.recorded == Some(v.history[|v.history| - 1].to) && StatusOf(v) == v.history[|v.history| - 1].to)
  }

  lemma MoveChained(start: Status, v: Version, w: Version)
    requires Chained(start, v) && Moved(v, w)
    ensures Chained(start, w) && v.history <= w.history
  {
    if w != v {
      var va, to, action, actor, reason :| w == SetLifecycle(v.(validation := va), to, action, actor, reason);
      var e := w.history[|v.history|];
      assert w.history == v.history + [e] && e.to == to;
      assert e.from == (if v.recorded.Some? then v.recorded.value else StatusOf(v));
      assert w.recorded == Some(to) && StatusOf(w) == to;
      forall k | 0 <= k < |w.history| ensures Linked(start, w.history, k) {
        assert k < |v.history| ==> Linked(start, v.history, k);
      }
    }
  }

  /** In every run over a table without lifecycle metadata, each version's history only grows, and is a chain from
      its original status to its current one. */
  lemma {:induction false} HistoryIsChain(t: Table, rs: seq<Request>, more: Request, k: nat)
    requires k < |t| && t[k].history == [] && t[k].recorded.None?
    ensures |Run(t, rs)| == |t| && |Step(Run(t, rs), more)| == |t|
    ensures Chained(if t[k].column.Some? then t[k].column.value else Draft, Run(t, rs)[k])
    ensures Run(t, rs)[k].history <= Step(Run(t, rs), more)[k].history
    decreases |rs|
  {
    if rs != [] {
      var init := rs[..|rs| - 1];
      HistoryIsChain(t, init, rs[|rs| - 1], k);
      StepAt(Run(t, init), rs[|rs| - 1], k);
      MoveChained(StatusOf(t[k]), Run(t, init)[k], Run(t, rs)[k]);
    }
    StepAt(Run(t, rs), more, k);
    MoveChained(StatusOf(t[k]), Run(t, rs)[k], Step(Run(t, rs), more)[k]);
  }

  // ---- Nothing is published without a passed validation and an approval ----

  predicate Validates(r: Request, k: nat) {
    r.op.Validate? && r.op.at == k
  }

  /** The p-th request passed version k, and no later one validated it again. */
  predicate LastPass(rs: seq<Request>, k: nat, p: nat) {
    && p < |rs| && Validates(rs[p], k) && rs[p].op.passed
    && forall q :: p < q < |rs| ==> !Validates(rs[q], k)
  }

  /** The q-th request approved version k, whose last validation until then, the p-th request, had passed. */
  ghost predicate ApprovedAfterPass(t: Table, rs: seq<Request>, k: nat, p: nat, q: nat) {
    && p < q < |rs| && rs[q].op == Approve(k) && LastPass(rs[..q], k, p)
    && Apply(Run(t, rs[..q]), rs[q]).Ok?
  }

  ghost predicate Vetted(t: Table, rs: seq<Request>, k: nat) {
    exists p: nat, q: nat :: ApprovedAfterPass(t, rs, k, p, q)
  }

  /** A rollback from another, usable version that has this one as its target. */
  predicate Restores(t: Table, r: Request, k: nat) {
    r.op.Rollback? && Usable(t, r.op.at) && r.op.at != k && RollbackTarget(t, r.op.at, r.op.target) == Some(k)
  }

  predicate NeverRestored(t: Table, rs: seq<Request>, k: nat) {
    rs == [] || (NeverRestored(t, rs[..|rs| - 1], k) && !Restores(Run(t, rs[..|rs| - 1]), rs[|rs| - 1], k))
  }

  /** A version nobody has validated, approved or published yet. */
  predicate Fresh(v: Version) {
    v.validation.None? && !StatusOf(v).Approved? && !StatusOf(v).Published?
  }

  lemma VettedExtends(t: Table, rs: seq<Request>, r: Request, k: nat)
    requires Vetted(t, rs, k)
    ensures Vetted(t, rs + [r], k)
  {
    var p: nat, q: nat :| ApprovedAfterPass(t, rs, k, p, q);
    assert (rs + [r])[..q] == rs[..q];
    assert ApprovedAfterPass(t, rs + [r], k, p, q);
  }

  /** How one request that does not restore a version changes its validation and its standing. */
  lemma StandingAfter(t: Table, r: Request, k: nat)
    requires k < |t| && !Restores(t, r, k)
    ensures var v, w := t[k], Step(t, r)[k];
      && |Step(t, r)| == |t|
      && (w.validation == Some(Passed) ==>
            (Validates(r, k) && r.op.passed) || (w.validation == v.validation && !(Validates(r, k) && Apply(t, r).Ok?)))
      && (StatusOf(w).Published? ==> StatusOf(v).Published? || StatusOf(v).Approved?)
      && (StatusOf(w).Approved? ==>
            StatusOf(v).Approved? || (r.op == Approve(k) && Apply(t, r).Ok? && v.validation == Some(Passed)))
  {
    StepAt(t, r, k);
  }

  /** In every run in which no rollback restores it, a version nobody had vetted before is approved or published only
      after a request approved it while its last validation request had passed. */
  lemma {:induction false} PublishedWasVetted(t: Table, rs: seq<Request>, k: nat)
    requires k < |t| && Fresh(t[k]) && !t[k].deleted && NeverRestored(t, rs, k)
    ensures |Run(t, rs)| == |t| && !Run(t, rs)[k].deleted
    ensures Run(t, rs)[k].validation == Some(Passed) ==> exists p: nat :: LastPass(rs, k, p)
    ensures StatusOf(Run(t, rs)[k]).Approved? || StatusOf(Run(t, rs)[k]).Published? ==> Vetted(t, rs, k)
  {
    if rs != [] {
      var init, r := rs[..|rs| - 1], rs[|rs| - 1];
      assert rs == init + [r];
      PublishedWasVetted(t, init, k);
      var before, after := Run(t, init), Run(t, rs);
      StepAt(before, r, k);
      StandingAfter(before, r, k);
      if after[k].validation == Some(Passed) {
        if Validates(r, k) && r.op.passed {
          assert LastPass(rs, k, |init|);
        } else {
          assert Apply(before, r).Ok? || !Validates(r, k);
          var p: nat :| LastPass(init, k, p);
          assert LastPass(rs, k, p);
        }
      }
      if StatusOf(after[k]).Approved? || StatusOf(after[k]).Published? {
        if StatusOf(before[k]).Approved? || StatusOf(before[k]).Published? {
          VettedExtends(t, init, r, k);
        } else {
          var p: nat :| LastPass(init, k, p);
          assert rs[..|init|] == init;
          assert ApprovedAfterPass(t, rs, k, p, |init|);
        }
      }
    }
  }

  // ---- The same, read off the version's own history ----

  /** Among the first q entries, the p-th is the last validation. */
  predicate LastValidation(h: seq<Entry>, q: nat, p: nat)
    requires q <= |h|
  {
    p < q && h[p].action.Validating? && forall j :: p < j < q ==> !h[j].action.Validating?
  }

  ghost predicate ShowsPass(h: seq<Entry>) {
    exists p: nat :: LastValidation(h, |h|, p) && h[p].to.Validated?
  }

  /** An approval whose last validation before it ended in validated. */
  ghost predicate ShowsVetting(h: seq<Entry>) {
    exists q: nat, p: nat :: q < |h| && h[q].action.Approving? && LastValidation(h, q, p) && h[p].to.Validated?
  }

  predicate Standing(v: Version) {
    StatusOf(v).Approved? || StatusOf(v).Published?
  }

  /** The version was left alone, or its history gained the entry that explains its validation and its standing. */
  predicate EntryStep(v: Version, w: Version) {
    w == v || (&& |w.history| == |v.history| + 1 && w.history[..|v.history|] == v.history
               && var e := w.history[|v.history|];
                  if e.action.Validating? then
                    (w.validation == Some(Passed) ==> e.to.Validated?) && (Standing(w) ==> Standing(v))
                  else
                    w.validation == v.validation
                    && (Standing(w) ==> Standing(v) || (e.action.Approving? && v.validation == Some(Passed))))
  }

  lemma EntryAfter(t: Table, r: Request, k: nat)
    requires k < |t| && !Restores(t, r, k)
    ensures |Step(t, r)| == |t| && EntryStep(t[k], Step(t, r)[k])
  {
    StepAt(t, r, k);
  }

  lemma ShowsMore(h: seq<Entry>, e: Entry)
    ensures ShowsVetting(h) ==> ShowsVetting(h + [e])
    ensures ShowsPass(h) && !e.action.Validating? ==> ShowsPass(h + [e])
    ensures ShowsPass(h) && e.action.Approving? ==> ShowsVetting(h + [e])
    ensures e.action.Validating? && e.to.Validated? ==> ShowsPass(h + [e])
  {
    var h' := h + [e];
    if ShowsVetting(h) {
      var q: nat, p: nat :| q < |h| && h[q].action.Approving? && LastValidation(h, q, p) && h[p].to.Validated?;
      assert LastValidation(h', q, p);
    }
    if ShowsPass(h) {
      var p: nat :| LastValidation(h, |h|, p) && h[p].to.Validated?;
      assert LastValidation(h', |h|, p);
      assert !e.action.Validating? ==> LastValidation(h', |h'|, p);
    }
    assert e.action.Validating? ==> LastValidation(h', |h'|, |h|);
  }

  /** A passed validation and an approved or published status both show in the version's history. */
  ghost predicate Shown(v: Version) {
    && (v.validation == Some(Passed) ==> ShowsPass(v.history))
    && (Standing(v) ==> ShowsVetting(v.history))
  }

  lemma ShownNext(v: Version, w: Version)
    requires Shown(v) && EntryStep(v, w)
    ensures Shown(w)
  {
    if w != v {
      var e := w.history[|v.history|];
      assert w.history == v.history + [e];
      ShowsMore(v.history, e);
    }
  }

  /** In every such run an approved or published version's history shows an approval, and the last validation entry
      before it ended in validated. */
  lemma {:induction false} HistoryShowsVetting(t: Table, rs: seq<Request>, k: nat)
    requires k < |t| && Fresh(t[k]) && NeverRestored(t, rs, k)
    ensures |Run(t, rs)| == |t| && Shown(Run(t, rs)[k])
  {
    if rs != [] {
      var before, r := Run(t, rs[..|rs| - 1]), rs[|rs| - 1];
      HistoryShowsVetting(t, rs[..|rs| - 1], k);
      EntryAfter(before, r, k);
      ShownNext(before[k], Step(before, r)[k]);
    }
  }

  /** A request on a version outside this one's group (or refused for want of an asset) leaves it alone. */
  lemma OutsidersKeep(t: Table, r: Request, k: nat)
    requires k < |t| && (Usable(t, r.op.at) ==> !SameGroup(t[r.op.at], t[k]) && r.op.at != k)
    ensures |Step(t, r)| == |t| && Step(t, r)[k] == t[k]
  {
    if r.op.Rollback? && r.op.at < |t| {
      TargetFound(t, r.op.at, r.op.target);
    }
  }

  predicate Outside(t: Table, r: Request, k: nat)
    requires k < |t|
  {
    r.op.at != k && (r.op.at < |t| ==> !SameGroup(t[r.op.at], t[k]))
  }

  /** No validation of version k among these passes. */
  predicate NonePasses(rs: seq<Request>, k: nat) {
    forall i :: 0 <= i < |rs| && Validates(rs[i], k) ==> !rs[i].op.passed
  }

  lemma ValidatedAgain(t: Table, r: Request, k: nat)
    requires Usable(t, k) && Validates(r, k)
    ensures |Step(t, r)| == |t| && (Standing(Step(t, r)[k]) <==> Standing(t[k]) && !r.op.passed)
  {
  }

  lemma {:induction false} IdentityKept(t: Table, rs: seq<Request>, j: nat)
    requires j < |t|
    ensures |Run(t, rs)| == |t| && SameIdentity(t[j], Run(t, rs)[j])
  {
    if rs != [] {
      IdentityKept(t, rs[..|rs| - 1], j);
      StepAt(Run(t, rs[..|rs| - 1]), rs[|rs| - 1], j);
    }
  }

  lemma SameGroupKept(v: Version, w: Version, v': Version, w': Version)
    requires SameIdentity(v, v') && SameIdentity(w, w')
    ensures SameGroup(v, w) <==> SameGroup(v', w')
  {
  }

  lemma OutsiderStillOutside(t: Table, rs: seq<Request>, r: Request, k: nat)
    requires k < |t| && Outside(t, r, k)
    ensures |Run(t, rs)| == |t| && Outside(Run(t, rs), r, k)
  {
    IdentityKept(t, rs, k);
    if r.op.at < |t| {
      IdentityKept(t, rs, r.op.at);
      SameGroupKept(t[r.op.at], t[k], Run(t, rs)[r.op.at], Run(t, rs)[k]);
    }
  }

  /** A validation of the version, or a request outside its group. */
  predicate ValidatesOrOutside(t: Table, r: Request, k: nat)
    requires k < |t|
  {
    Validates(r, k) || Outside(t, r, k)
  }

  lemma NonePassesNext(rs: seq<Request>, k: nat)
    requires rs != []
    ensures NonePasses(rs, k)
       <==> NonePasses(rs[..|rs| - 1], k) && (Validates(rs[|rs| - 1], k) ==> !rs[|rs| - 1].op.passed)
  {
    assert rs == rs[..|rs| - 1] + [rs[|rs| - 1]];
  }

  lemma StandingNext(t: Table, before: Table, r: Request, k: nat)
    requires Usable(t, k) && |before| == |t| && SameIdentity(t[k], before[k])
    requires Validates(r, k) || Outside(before, r, k)
    ensures |Step(before, r)| == |before|
    ensures Standing(Step(before, r)[k]) <==> Standing(before[k]) && (Validates(r, k) ==> !r.op.passed)
  {
    if Validates(r, k) {
      ValidatedAgain(before, r, k);
    } else {
      OutsidersKeep(before, r, k);
    }
  }

  lemma {:induction false} Revalidated(t: Table, rs: seq<Request>, k: nat)
    requires Usable(t, k) && forall i :: 0 <= i < |rs| ==> ValidatesOrOutside(t, rs[i], k)
    ensures |Run(t, rs)| == |t|
    ensures Standing(Run(t, rs)[k]) <==> Standing(t[k]) && NonePasses(rs, k)
  {
    if rs != [] {
      var init, r := rs[..|rs| - 1], rs[|rs| - 1];
      Revalidated(t, init, k);
      IdentityKept(t, init, k);
      NonePassesNext(rs, k);
      assert ValidatesOrOutside(t, r, k);
      if !Validates(r, k) {
        OutsiderStillOutside(t, init, r, k);
      }
      StandingNext(t, Run(t, init), r, k);
    }
  }

  /** Validation and publication, exactly. After any number of validations of a version, with anything happening in
      other groups in between, it can be published exactly if it was approved or published before and every one of
      them failed: a failure does not withdraw an approval, and a pass does. */
  lemma RevalidationExact(t: Table, rs: seq<Request>, k: nat, publish: Request)
    requires Usable(t, k) && forall i :: 0 <= i < |rs| ==> ValidatesOrOutside(t, rs[i], k)
    requires publish.op == Publish(k)
    ensures Apply(Run(t, rs), publish).Ok? <==> Standing(t[k]) && NonePasses(rs, k)
  {
    Revalidated(t, rs, k);
    IdentityKept(t, rs, k);
  }

  /** In particular a version is published whose last validation failed. */
  lemma FailedRevalidationStillPublishes(t: Table, at: nat, first: Request, second: Request)
    requires Usable(t, at) && first.op == Validate(at, false) && second.op == Publish(at)
    ensures Apply(Step(t, first), second).Ok? <==> Standing(t[at])
    ensures Apply(Step(t, first), second).Ok? ==>
      && Step(Step(t, first), second)[at].validation == Some(NotPassed)
      && StatusOf(Step(Step(t, first), second)[at]).Published?
  {
  }

  lemma ShowsVettingNext(h: seq<Entry>, e: Entry)
    requires !e.action.Approving?
    ensures ShowsVetting(h + [e]) <==> ShowsVetting(h)
  {
    ShowsMore(h, e);
    var h' := h + [e];
    if ShowsVetting(h') {
      var q: nat, p: nat :|
        q < |h'| && h'[q].action.Approving? && LastValidation(h', q, p) && h'[p].to.Validated?;
      assert q < |h| && h[p] == h'[p] && h[q] == h'[q];
      forall j | p < j < q ensures !h[j].action.Validating? {
        assert h[j] == h'[j];
      }
      assert LastValidation(h, q, p);
    }
  }

  /** A rollback that restores a version publishes it as it stands, and its history shows a vetting afterwards exactly
      if it did before: the reason such rollbacks are excepted. */
  lemma RollbackSkipsVetting(t: Table, r: Request, k: nat)
    requires Restores(t, r, k)
    ensures k < |t| && SameGroup(t[r.op.at], t[k]) && Apply(t, r).Ok?
    ensures StatusOf(Step(t, r)[k]).Published? && Step(t, r)[k].validation == t[k].validation
    ensures ShowsVetting(Step(t, r)[k].history) <==> ShowsVetting(t[k].history)
  {
    TargetFound(t, r.op.at, r.op.target);
    var h, h' := t[k].history, Step(t, r)[k].history;
    assert h' == h + [h'[|h|]];
    ShowsVettingNext(h, h'[|h|]);
  }

  // ---- Deprecation and use ----

  /** A deployment that is neither a draft nor stopped, or, where those count, an agent version that is neither a draft
      nor archived. */
  predicate Counts(d: Document, deploymentsOnly: bool) {
    if d.isDeployment then d.status != "draft" && d.status != "stopped"
    else !deploymentsOnly && d.status != "draft" && d.status != "archived"
  }

  /** The use check raises exactly when the search of some document does; otherwise it stops a version exactly
      when a document that counts mentions it. */
  lemma {:induction false} UseCheckExact(documents: seq<Document>, v: Version, deploymentsOnly: bool)
    ensures InUseBy(documents, v, deploymentsOnly).Raises? <==>
      exists d <- documents :: Refs.Search(d.content, Refs.Asset(v.name, v.version, v.assetType)).Raises?
    ensures !InUseBy(documents, v, deploymentsOnly).Raises? ==>
      (InUseBy(documents, v, deploymentsOnly).Yes? <==> exists d <- documents ::
         Counts(d, deploymentsOnly) && Refs.Reaches(d.content, Refs.Asset(v.name, v.version, v.assetType), Refs.Yes))
  {
    if documents != [] {
      UseCheckExact(documents[1..], v, deploymentsOnly);
      Refs.SearchExact(documents[0].content, RefersTo(v));
      assert documents == [documents[0]] + documents[1..];
    }
  }

  /** The three requests that deprecate a version: asking for it while the use check says no, publishing over it
      another version of its group that is approved or published, and rolling it back to a different version. */
  predicate Deprecates(t: Table, r: Request, k: nat)
    requires k < |t|
  {
    && Usable(t, r.op.at)
    && match r.op
       case Deprecate(at, documents) => at == k && InUseBy(documents, t[k], true).No?
       case Publish(at) => at != k && SameGroup(t[at], t[k]) && StatusOf(t[k]).Published? && Standing(t[at])
       case Rollback(at, target) =>
         at == k && RollbackTarget(t, at, target).Some? && RollbackTarget(t, at, target) != Some(k)
       case _ => false
  }

  /** A version that is not deprecated becomes so by exactly these requests. */
  lemma DeprecationClassified(t: Table, r: Request, k: nat)
    requires k < |t| && !StatusOf(t[k]).Deprecated?
    ensures |Step(t, r)| == |t| && (StatusOf(Step(t, r)[k]).Deprecated? <==> Deprecates(t, r, k))
  {
    StepAt(t, r, k);
    if r.op.Rollback? && r.op.at < |t| {
      TargetFound(t, r.op.at, r.op.target);
    }
  }

  /** So of a version that an active deployment mentions, where no document is unreadable, an explicit deprecation is
      refused, and a publication over it or its rollback goes through just the same. */
  lemma DeprecatedInUse(t: Table, r: Request, k: nat, documents: seq<Document>, d: Document)
    requires k < |t| && !StatusOf(t[k]).Deprecated? && !InUseBy(documents, t[k], true).Raises?
    requires d in documents && Counts(d, true)
    requires Refs.Reaches(d.content, Refs.Asset(t[k].name, t[k].version, t[k].assetType), Refs.Yes)
    ensures |Step(t, r)| == |t|
    ensures Usable(t, k) && r.op == Deprecate(k, documents) ==> Apply(t, r) == Err(InUse)
    ensures !r.op.Deprecate? ==> (StatusOf(Step(t, r)[k]).Deprecated? <==> Deprecates(t, r, k))
  {
    UseCheckExact(documents, t[k], true);
    DeprecationClassified(t, r, k);
  }

  // ---- The operations on records in place ----

  class AssetStore {
    var records: Table

    constructor (records: Table)
      ensures this.records == records
    {
      this.records := records;
    }

    method SetStatus(at: nat, to: Status, action: Action, actor: Option<string>, reason: Option<string>)
      requires at < |records|
      modifies this
      ensures records == old(records)[at := SetLifecycle(old(records)[at], to, action, actor, reason)]
    {
      var v := records[at];
      var previous := if v.recorded.Some? then v.recorded.value else StatusOf(v);
      var changed := v.(recorded := Some(to), history := v.history + [Entry(action, actor, reason, previous, to)]);
      if v.column.Some? {
        changed := changed.(column := Some(to));
      }
      assert changed == SetLifecycle(v, to, action, actor, reason);
      records := records[at := changed];
    }

    method ValidateAsset(at: nat, passed: bool, actor: Option<string>, reason: Option<string>) returns (ok: bool)
      modifies this
      ensures var r := Request(Validate(at, passed), actor, reason);
        records == Step(old(records), r) && ok == Apply(old(records), r).Ok?
    {
      ok := at < |records| && !records[at].deleted;
      if ok {
        records := records[at := records[at].(validation := Some(if passed then Passed else NotPassed))];
        SetStatus(at, if passed then Validated else StatusOf(records[at]), Validating, actor, reason);
      }
    }

    method ApproveAsset(at: nat, actor: Option<string>, reason: Option<string>) returns (error: Option<Error>)
      modifies this
      ensures var result := Apply(old(records), Request(Approve(at), actor, reason));
        && records == Step(old(records), Request(Approve(at), actor, reason))
        && error == if result.Ok? then None else Some(result.error)
    {
      if at >= |records| || records[at].deleted {
        return Some(NoSuchAsset);
      }
      if records[at].validation != Some(Passed) {
        return Some(ValidationRequired);
      }
      SetStatus(at, Approved, Approving, actor, reason);
      error := None;
    }

    /** The loop that supersedes the published versions beside the new one. */
    method PublishAsset(at: nat, actor: Option<string>, reason: Option<string>) returns (error: Option<Error>)
      modifies this
      ensures var result := Apply(old(records), Request(Publish(at), actor, reason));
        && records == Step(old(records), Request(Publish(at), actor, reason))
        && error == if result.Ok? then None else Some(result.error)
    {
      if at >= |records| || records[at].deleted {
        return Some(NoSuchAsset);
      }
      if !(StatusOf(records[at]).Approved? || StatusOf(records[at]).Published?) {
        return Some(ApprovalRequired);
      }
      ghost var before, r := records, Request(Publish(at), actor, reason);
      for k := 0 to |records|
        invariant |records| == |before| && records[at] == before[at]
        invariant forall j :: 0 <= j < k && j != at ==> records[j] == PublishedTo(before, at, r, j)
        invariant forall j :: k <= j < |records| ==> records[j] == before[j]
      {
        if SameGroup(records[at], records[k]) && k != at && StatusOf(records[k]).Published? {
          SetStatus(k, Deprecated, Deprecating, actor, Some("superseded_by:" + IntText(records[at].id)));
        }
      }
      SetStatus(at, Published, Publishing, actor, reason);
      assert records == AllPublished(before, at, r);
      error := None;
    }

    /** The loop over the documents that may mention a version. */
    method CheckUse(documents: seq<Document>, v: Version, deploymentsOnly: bool) returns (use: Refs.Answer)
      ensures use == InUseBy(documents, v, deploymentsOnly)
    {
      use := Refs.No;
      for i := 0 to |documents|
        invariant !use.Raises?
        invariant InUseBy(documents, v, deploymentsOnly)
               == if use.Yes? && InUseBy(documents[i..], v, deploymentsOnly).No? then Refs.Yes
                  else InUseBy(documents[i..], v, deploymentsOnly)
      {
        var d := documents[i];
        assert documents[i..][1..] == documents[i + 1..];
        var found := Refs.Search(d.content, RefersTo(v));
        if found.Raises? {
          return Refs.Raises;
        }
        if found.Yes? && Active(d) && (d.isDeployment || !deploymentsOnly) {
          use := Refs.Yes;
        }
      }
    }

    method DeprecateAsset(at: nat, documents: seq<Document>, actor: Option<string>, reason: Option<string>)
      returns (error: Option<Error>)
      modifies this
      ensures var result := Apply(old(records), Request(Deprecate(at, documents), actor, reason));
        && records == Step(old(records), Request(Deprecate(at, documents), actor, reason))
        && error == if result.Ok? then None else Some(result.error)
    {
      if at >= |records| || records[at].deleted {
        return Some(NoSuchAsset);
      }
      var use := CheckUse(documents, records[at], true);
      if !use.No? {
        return Some(if use.Yes? then InUse else TypeError);
      }
      SetStatus(at, Deprecated, Deprecating, actor, reason);
      error := None;
    }

    method ArchiveAsset(at: nat, documents: seq<Document>, actor: Option<string>, reason: Option<string>)
      returns (error: Option<Error>)
      modifies this
      ensures var result := Apply(old(records), Request(Archive(at, documents), actor, reason));
        && records == Step(old(records), Request(Archive(at, documents), actor, reason))
        && error == if result.Ok? then None else Some(result.error)
    {
      if at >= |records| || records[at].deleted {
        return Some(NoSuchAsset);
      }
      var use := CheckUse(documents, records[at], false);
      if !use.No? {
        return Some(if use.Yes? then StillReferenced else TypeError);
      }
      SetStatus(at, Archived, Archiving, actor, reason);
      error := None;
    }

    /** The search for the rollback target through the version history. */
    method LocateTarget(at: nat, target: Option<string>) returns (found: Option<nat>)
      requires at < |records|
      ensures found == RollbackTarget(records, at, target)
    {
      if target.Some? && target.value != "" {
        var k: nat := 0;
        while k < |records| && !(SameGroup(records[at], records[k]) && records[k].version == target.value)
          invariant k <= |records|
          invariant FindVersion(records, at, target.value, 0) == FindVersion(records, at, target.value, k)
        {
          k := k + 1;
        }
        found := if k < |records| then Some(k) else None;
      } else {
        var k: nat := |records|;
        while k > 0 && !(SameGroup(records[at], records[k - 1]) && k - 1 != at)
          invariant k <= |records|
          invariant FindPrevious(records, at, |records|) == FindPrevious(records, at, k)
        {
          k := k - 1;
        }
        found := if k > 0 then Some(k - 1) else None;
      }
    }

    method RollbackAsset(at: nat, target: Option<string>, actor: Option<string>, reason: Option<string>)
      returns (error: Option<Error>)
      modifies this
      ensures var result := Apply(old(records), Request(Rollback(at, target), actor, reason));
        && records == Step(old(records), Request(Rollback(at, target), actor, reason))
        && error == if result.Ok? then None else Some(result.error)
    {
      if at >= |records| || records[at].deleted {
        return Some(NoSuchAsset);
      }
      var found := LocateTarget(at, target);
      if found.None? {
        return Some(TargetNotFound);
      }
      TargetFound(records, at, target);
      if found.value == at {
        return Some(TargetInvalid);
      }
      SetStatus(at, Deprecated, RollingBack, actor, reason);
      SetStatus(found.value, Published, Publishing, actor, reason);
      error := None;
    }
  }
}
