/** artifacts/store.py: what the three artifact stores have in common, free of how they name and keep objects. */
module ArtifactVault {
  import opened Common
  import opened DecimalText
  import Audit = ComplianceAudit
  import Json = AssetReferences

  type Bytes = seq<int>
  type Payload = map<string, string>

  /** JSON encoding and parsing, the conversion of a parsed value to a dict, and SHA-256, as functions from outside.
      Parsing fails on other texts, and the conversion on values that make no dict. */
  datatype Codec = Codec(
    encode: Payload -> Bytes, parse: Bytes -> Option<Json.Json>, asDict: Json.Json -> Option<Payload>,
    checksum: Bytes -> string)

  function Decoded(c: Codec, bytes: Bytes): Option<Payload> {
    match c.parse(bytes)
    case Some(v) => c.asDict(v)
    case None => None
  }

  ghost predicate Lawful(c: Codec) {
    forall p :: Decoded(c, c.encode(p)) == Some(p)
  }

  datatype Context = Context(
    tenantId: int, projectId: Option<int>, runId: int, attemptId: Option<int>, userId: Option<int>,
    serviceAccountId: Option<int>)

  datatype Artifact = Artifact(
    id: int, tenantId: int, projectId: Option<int>, runId: int, attemptId: Option<int>, eventId: Option<string>,
    artifactType: string, mimeType: string, sizeBytes: nat, uri: string, checksum: string,
    visibility: string, createdBy: Option<string>, createdAt: int, metadata: map<string, string>)

  /** What is to be written, and the clock when its record is made. */
  datatype WriteRequest = WriteRequest(
    context: Context, artifactType: string, payload: Payload, visibility: string, createdBy: Option<string>,
    eventId: Option<string>, metadata: Option<map<string, string>>, at: int)

  datatype ReadError = UnknownUri | AccessDenied | ChecksumMismatch | Undecodable | NotADict

  /** An artifact without its uri, and the bytes now stored for it. */
  datatype Item = Item(artifact: Artifact, bytes: Bytes)

  /** items[i] is the artifact of id i + 1. */
  datatype Vault = Vault(items: seq<Item>, audit: seq<Audit.Record>)

  function Described(req: WriteRequest, id: int, uri: string, c: Codec): Artifact {
    var encoded, ctx := c.encode(req.payload), req.context;
    Artifact(id, ctx.tenantId, ctx.projectId, ctx.runId, ctx.attemptId, req.eventId, req.artifactType,
             "application/json", |encoded|, uri, c.checksum(encoded), req.visibility, req.createdBy, req.at,
             if req.metadata.Some? then req.metadata.value else map[])
  }

  function Written(v: Vault, req: WriteRequest, c: Codec): Vault {
    v.(items := v.items + [Item(Described(req, |v.items| + 1, "", c), c.encode(req.payload))])
  }

  function ActorId(ctx: Context): Option<string> {
    if ctx.userId.Some? && ctx.userId.value != 0 then Some(IntText(ctx.userId.value))
    else if ctx.serviceAccountId.Some? then Some(IntText(ctx.serviceAccountId.value))
    else None
  }

  function ReadEntry(a: Artifact, ctx: Context, result: string, reason: Option<string>): Audit.Entry {
    Audit.Entry(ctx.tenantId, ctx.projectId, ActorId(ctx),
                if ctx.serviceAccountId.Some? && ctx.serviceAccountId.value != 0 then "service_account" else "user",
                "artifact.read", "artifact", Some(a.id), result,
                if reason.None? then map["visibility_level" := Some(a.visibility)]
                else map["reason" := reason, "visibility_level" := Some(a.visibility)])
  }

  datatype ReadOutcome = ReadOutcome(result: Result<Payload, ReadError>, entry: Option<Audit.Entry>)

  /** Scope, permission and checksum are all in order. */
  predicate Cleared(item: Item, ctx: Context, permissions: set<string>, c: Codec) {
    && item.artifact.tenantId == ctx.tenantId && item.artifact.projectId == ctx.projectId
    && "artifact:read:" + item.artifact.visibility in permissions
    && c.checksum(item.bytes) == item.artifact.checksum
  }

  /** A read of a known artifact: its result, and the audit entry it leaves. The in-memory store parses before it
      audits, the other two audit first; that shows only when bytes that pass every check do not parse. */
  function ReadItem(item: Item, ctx: Context, permissions: set<string>, c: Codec, auditFirst: bool): ReadOutcome {
    var a := item.artifact;
    if a.tenantId != ctx.tenantId || a.projectId != ctx.projectId then
      ReadOutcome(Err(AccessDenied), Some(ReadEntry(a, ctx, "deny", Some("scope_mismatch"))))
    else if "artifact:read:" + a.visibility !in permissions then
      ReadOutcome(Err(AccessDenied), Some(ReadEntry(a, ctx, "deny", None)))
    else if c.checksum(item.bytes) != a.checksum then
      ReadOutcome(Err(ChecksumMismatch), Some(ReadEntry(a, ctx, "deny", Some("checksum_mismatch"))))
    else
      var allow := ReadEntry(a, ctx, "allow", None);
      match c.parse(item.bytes)
      case None => ReadOutcome(Err(Undecodable), if auditFirst then Some(allow) else None)
      case Some(v) => ReadOutcome(if c.asDict(v).Some? then Ok(c.asDict(v).value) else Err(NotADict), Some(allow))
  }

  /** A reader in the artifact's scope, with the permission for its visibility. */
  predicate Entitled(a: Artifact, ctx: Context, permissions: set<string>) {
    a.tenantId == ctx.tenantId && a.projectId == ctx.projectId && "artifact:read:" + a.visibility in permissions
  }

  /** Each result of a read, and exactly when it is given. */
  predicate ResultFits(r: Result<Payload, ReadError>, item: Item, ctx: Context, permissions: set<string>, c: Codec) {
    var a, intact := item.artifact, c.checksum(item.bytes) == item.artifact.checksum;
    && (r == Err(AccessDenied) <==> !Entitled(a, ctx, permissions))
    && (r == Err(ChecksumMismatch) <==> Entitled(a, ctx, permissions) && !intact)
    && (r == Err(Undecodable) <==> Entitled(a, ctx, permissions) && intact && c.parse(item.bytes).None?)
    && (r == Err(NotADict) <==>
          Entitled(a, ctx, permissions) && intact && c.parse(item.bytes).Some? && Decoded(c, item.bytes).None?)
    && (r.Ok? ==> Some(r.value) == Decoded(c, item.bytes))
  }

  /** The audit entry of a read: who read what and from which scope, and whether the checks let them. */
  predicate EntryFits(e: Audit.Entry, item: Item, ctx: Context, permissions: set<string>, c: Codec) {
    var a, foreign := item.artifact, item.artifact.tenantId != ctx.tenantId || item.artifact.projectId != ctx.projectId;
    var corrupt := c.checksum(item.bytes) != a.checksum;
    && e.tenantId == ctx.tenantId && e.projectId == ctx.projectId
    && e.actorId == (if ctx.userId.Some? && ctx.userId.value != 0 then Some(IntText(ctx.userId.value))
                     else if ctx.serviceAccountId.None? then None
                     else Some(IntText(ctx.serviceAccountId.value)))
    && e.actorType == (if ctx.serviceAccountId.None? || ctx.serviceAccountId.value == 0 then "user"
                       else "service_account")
    && e.action == "artifact.read" && e.resourceType == "artifact" && e.resourceId == Some(a.id)
    && e.result == (if Entitled(a, ctx, permissions) && !corrupt then "allow" else "deny")
    && e.metadata == (if foreign then map["reason" := Some("scope_mismatch"), "visibility_level" := Some(a.visibility)]
                      else if Entitled(a, ctx, permissions) && corrupt then
                        map["reason" := Some("checksum_mismatch"), "visibility_level" := Some(a.visibility)]
                      else map["visibility_level" := Some(a.visibility)])
  }

  /** What a read gives and what it leaves in the audit log: an entry always, save in the in-memory store when bytes
      that pass every check do not parse. */
  lemma ReadExact(item: Item, ctx: Context, permissions: set<string>, c: Codec, auditFirst: bool)
    ensures var o := ReadItem(item, ctx, permissions, c, auditFirst);
      && ResultFits(o.result, item, ctx, permissions, c)
      && (o.entry.None? <==> !auditFirst && o.result == Err(Undecodable))
      && (o.entry.Some? ==> EntryFits(o.entry.value, item, ctx, permissions, c))
  {
  }

  /** The record of a written artifact: where it came from, as the request says, and what was stored. */
  predicate RecordFits(a: Artifact, req: WriteRequest, id: int, c: Codec) {
    && a.id == id && a.tenantId == req.context.tenantId && a.projectId == req.context.projectId
    && a.runId == req.context.runId && a.attemptId == req.context.attemptId && a.eventId == req.eventId
    && a.artifactType == req.artifactType && a.mimeType == "application/json"
    && a.sizeBytes == |c.encode(req.payload)| && a.checksum == c.checksum(c.encode(req.payload))
    && a.visibility == req.visibility && a.createdBy == req.createdBy && a.createdAt == req.at
    && (if req.metadata.None? then a.metadata == map[] else a.metadata == req.metadata.value)
  }

  predicate Known(v: Vault, id: int) {
    1 <= id <= |v.items|
  }

  function Noted(v: Vault, entry: Option<Audit.Entry>, at: int, redact: Audit.Redaction): Vault {
    if entry.None? then v else v.(audit := Audit.Appended(v.audit, entry.value, at, redact))
  }

  // ---- Runs, and what the stores can disagree on ----

  datatype Op =
    | Write(req: WriteRequest)
    | Read(id: int, ctx: Context, permissions: set<string>, at: int)
    | Tamper(id: int, bytes: Bytes)

  datatype Reply = Stored(id: int) | Fetched(result: Result<Payload, ReadError>) | Silent

  function Step(v: Vault, op: Op, c: Codec, redact: Audit.Redaction, auditFirst: bool): (Vault, Reply) {
    match op
    case Write(req) => (Written(v, req, c), Stored(|v.items| + 1))
    case Read(id, ctx, permissions, at) =>
      if !Known(v, id) then (v, Fetched(Err(UnknownUri)))
      else
        var o := ReadItem(v.items[id - 1], ctx, permissions, c, auditFirst);
        (Noted(v, o.entry, at, redact), Fetched(o.result))
    case Tamper(id, bytes) =>
      if Known(v, id) then (v.(items := v.items[id - 1 := v.items[id - 1].(bytes := bytes)]), Silent) else (v, Silent)
  }

  function Run(v: Vault, ops: seq<Op>, c: Codec, redact: Audit.Redaction, auditFirst: bool): (Vault, seq<Reply>) {
    if ops == [] then (v, [])
    else
      var (v', replies) := Run(v, ops[..|ops| - 1], c, redact, auditFirst);
      var (v'', reply) := Step(v', ops[|ops| - 1], c, redact, auditFirst);
      (v'', replies + [reply])
  }

  /** A read of bytes that pass every check and then do not parse. */
  predicate Misleads(v: Vault, op: Op, c: Codec) {
    && op.Read? && Known(v, op.id)
    && var item := v.items[op.id - 1];
       Cleared(item, op.ctx, op.permissions, c) && c.parse(item.bytes).None?
  }

  /** A read changes no artifact. Of a known one it adds exactly one audit record, in the in-memory store unless it
      misleads; of an unknown one it says so and adds none. */
  lemma OneRecordPerRead(v: Vault, op: Op, c: Codec, redact: Audit.Redaction, auditFirst: bool)
    requires op.Read?
    ensures var (v', reply) := Step(v, op, c, redact, auditFirst);
      && v'.items == v.items && reply.Fetched?
      && (reply.result == Err(UnknownUri) <==> op.id < 1 || op.id > |v.items|)
      && (reply.result == Err(UnknownUri) ==> v' == v)
      && (Known(v, op.id) ==> |v'.audit| == |v.audit| + if auditFirst || !Misleads(v, op, c) then 1 else 0)
  {
  }

  /** The same calls give the same replies and the same stored artifacts in all three stores; a misleading read
      is one record short in the in-memory store, and nothing else makes the audit logs differ. */
  lemma StepAgreement(v: Vault, w: Vault, op: Op, c: Codec, redact: Audit.Redaction)
    requires v.items == w.items
    ensures Step(v, op, c, redact, false).1 == Step(w, op, c, redact, true).1
    ensures Step(v, op, c, redact, false).0.items == Step(w, op, c, redact, true).0.items
    ensures |Step(w, op, c, redact, true).0.audit| - |w.audit|
         == |Step(v, op, c, redact, false).0.audit| - |v.audit| + if Misleads(v, op, c) then 1 else 0
    ensures v.audit == w.audit && !Misleads(v, op, c) ==>
      Step(v, op, c, redact, false).0.audit == Step(w, op, c, redact, true).0.audit
  {
  }

  predicate NeverMisleads(v: Vault, ops: seq<Op>, c: Codec, redact: Audit.Redaction) {
    ops == [] || (NeverMisleads(v, ops[..|ops| - 1], c, redact)
                  && !Misleads(Run(v, ops[..|ops| - 1], c, redact, false).0, ops[|ops| - 1], c))
  }

  /** Over whole runs: same replies, same artifacts, and the same audit log exactly when no read misleads. */
  lemma {:induction false} StoresAgree(v: Vault, ops: seq<Op>, c: Codec, redact: Audit.Redaction)
    ensures Run(v, ops, c, redact, false).1 == Run(v, ops, c, redact, true).1
    ensures Run(v, ops, c, redact, false).0.items == Run(v, ops, c, redact, true).0.items
    ensures Run(v, ops, c, redact, false) == Run(v, ops, c, redact, true) <==> NeverMisleads(v, ops, c, redact)
    ensures |Run(v, ops, c, redact, false).0.audit| <= |Run(v, ops, c, redact, true).0.audit|
    ensures !NeverMisleads(v, ops, c, redact) ==>
      |Run(v, ops, c, redact, false).0.audit| < |Run(v, ops, c, redact, true).0.audit|
  {
    if ops != [] {
      var init := ops[..|ops| - 1];
      StoresAgree(v, init, c, redact);
      StepAgreement(Run(v, init, c, redact, false).0, Run(v, init, c, redact, true).0, ops[|ops| - 1], c, redact);
    }
  }

  /** The bytes of an artifact are those some payload was encoded to, or give themselves away by their checksum. */
  ghost predicate Honest(v: Vault, c: Codec) {
    forall i :: 0 <= i < |v.items| ==> HonestItem(v.items[i], c)
  }

  ghost predicate HonestItem(item: Item, c: Codec) {
    c.checksum(item.bytes) != item.artifact.checksum || exists p :: item.bytes == c.encode(p)
  }

  /** Tampering that does not hit the recorded checksum. */
  ghost predicate Detectable(v: Vault, op: Op, c: Codec) {
    op.Tamper? && Known(v, op.id) ==> c.checksum(op.bytes) != v.items[op.id - 1].artifact.checksum
  }

  ghost predicate AllDetectable(v: Vault, ops: seq<Op>, c: Codec, redact: Audit.Redaction) {
    ops == [] || (AllDetectable(v, ops[..|ops| - 1], c, redact)
                  && Detectable(Run(v, ops[..|ops| - 1], c, redact, false).0, ops[|ops| - 1], c))
  }

  lemma HonestStep(v: Vault, op: Op, c: Codec, redact: Audit.Redaction)
    requires Lawful(c) && Honest(v, c) && Detectable(v, op, c)
    ensures Honest(Step(v, op, c, redact, false).0, c) && !Misleads(v, op, c)
  {
    if op.Read? && Known(v, op.id) {
      assert HonestItem(v.items[op.id - 1], c);
    }
    if op.Write? {
      assert HonestItem(Written(v, op.req, c).items[|v.items|], c);
    }
  }

  lemma {:induction false} HonestRun(v: Vault, ops: seq<Op>, c: Codec, redact: Audit.Redaction)
    requires Lawful(c) && Honest(v, c) && AllDetectable(v, ops, c, redact)
    ensures Honest(Run(v, ops, c, redact, false).0, c) && NeverMisleads(v, ops, c, redact)
  {
    if ops != [] {
      HonestRun(v, ops[..|ops| - 1], c, redact);
      HonestStep(Run(v, ops[..|ops| - 1], c, redact, false).0, ops[|ops| - 1], c, redact);
    }
  }

  /** So the stores cannot be told apart in any run in which tampering never collides with a checksum. */
  lemma StoresIndistinguishable(ops: seq<Op>, c: Codec, redact: Audit.Redaction)
    requires Lawful(c) && AllDetectable(Vault([], []), ops, c, redact)
    ensures Run(Vault([], []), ops, c, redact, false) == Run(Vault([], []), ops, c, redact, true)
  {
    HonestRun(Vault([], []), ops, c, redact);
    StoresAgree(Vault([], []), ops, c, redact);
  }

  lemma {:induction false} ItemsPersist(v: Vault, ops: seq<Op>, c: Codec, redact: Audit.Redaction, auditFirst: bool,
                                        i: nat)
    requires i < |v.items|
    requires forall k :: 0 <= k < |ops| ==> !(ops[k].Tamper? && ops[k].id == i + 1)
    ensures i < |Run(v, ops, c, redact, auditFirst).0.items|
    ensures Run(v, ops, c, redact, auditFirst).0.items[i] == v.items[i]
  {
    if ops != [] {
      ItemsPersist(v, ops[..|ops| - 1], c, redact, auditFirst, i);
    }
  }

  /** What was written is what an entitled reader gets back, whatever calls come in between, unless the artifact
      itself is tampered with. */
  lemma WriteThenRead(v: Vault, req: WriteRequest, between: seq<Op>, ctx: Context, permissions: set<string>,
                      at: int, c: Codec, redact: Audit.Redaction, auditFirst: bool)
    requires Lawful(c)
    requires ctx.tenantId == req.context.tenantId && ctx.projectId == req.context.projectId
    requires "artifact:read:" + req.visibility in permissions
    ensures var (written, reply) := Step(v, Write(req), c, redact, auditFirst);
      && reply.Stored?
      && ((forall k :: 0 <= k < |between| ==> !(between[k].Tamper? && between[k].id == reply.id)) ==>
            var v' := Run(written, between, c, redact, auditFirst).0;
            Step(v', Read(reply.id, ctx, permissions, at), c, redact, auditFirst).1 == Fetched(Ok(req.payload)))
  {
    if forall k :: 0 <= k < |between| ==> !(between[k].Tamper? && between[k].id == |v.items| + 1) {
      ItemsPersist(Written(v, req, c), between, c, redact, auditFirst, |v.items|);
    }
  }
}

/** How the stores name artifacts and place their objects. */
module ArtifactNaming {
  import opened DecimalText
  import opened ArtifactVault

  type Naming = int -> string

  ghost predicate Injective(name: Naming) {
    forall m, n :: name(m) == name(n) ==> m == n
  }

  /** prefix + id + suffix */
  function Affixed(prefix: string, suffix: string): Naming {
    id => prefix + IntText(id) + suffix
  }

  lemma AffixedInjective(prefix: string, suffix: string)
    ensures Injective(Affixed(prefix, suffix))
  {
    forall m, n | Affixed(prefix, suffix)(m) == Affixed(prefix, suffix)(n) ensures m == n {
      var s := Affixed(prefix, suffix)(m);
      assert IntText(m) == s[|prefix|..|s| - |suffix|];
      assert IntText(n) == s[|prefix|..|s| - |suffix|];
      IntTextInjective(m, n);
    }
  }

  /** Ids below n each have one record, stored under the artifact's own uri; there are no others. */
  ghost predicate Keyed(records: map<string, Artifact>, name: Naming, n: int) {
    && (forall id :: 1 <= id < n ==> HasRecord(records, name, id))
    && (forall uri :: uri in records ==>
          records[uri].uri == uri && 1 <= records[uri].id < n && name(records[uri].id) == uri)
  }

  predicate HasRecord(records: map<string, Artifact>, name: Naming, id: int) {
    name(id) in records && records[name(id)].id == id
  }

  predicate HasObject(objects: map<string, Bytes>, place: Naming, id: int) {
    place(id) in objects
  }

  ghost predicate Placed(objects: map<string, Bytes>, place: Naming, n: int) {
    forall id :: 1 <= id < n ==> HasObject(objects, place, id)
  }

  /** The store's contents, with the naming taken out. */
  ghost function Items(records: map<string, Artifact>, name: Naming, objects: map<string, Bytes>, place: Naming,
                       n: int): seq<Item>
    requires n >= 1 && Keyed(records, name, n) && Placed(objects, place, n)
  {
    seq(n - 1, i requires 0 <= i < n - 1 =>
      assert HasRecord(records, name, i + 1) && HasObject(objects, place, i + 1);
      Item(records[name(i + 1)].(uri := ""), objects[place(i + 1)]))
  }

  lemma AddRecord(records: map<string, Artifact>, name: Naming, n: int, a: Artifact)
    requires n >= 1 && Keyed(records, name, n) && Injective(name) && a.id == n && a.uri == name(n)
    ensures Keyed(records[a.uri := a], name, n + 1)
    ensures forall id :: 1 <= id < n ==>
      HasRecord(records, name, id) && records[a.uri := a][name(id)] == records[name(id)]
    ensures a.uri !in records
  {
    var added := records[a.uri := a];
    forall id | 1 <= id < n + 1 ensures HasRecord(added, name, id) {
      assert id < n ==> HasRecord(records, name, id);
    }
    forall id | 1 <= id < n ensures HasRecord(records, name, id) && records[a.uri := a][name(id)] == records[name(id)] {
      assert name(id) != name(n);
    }
  }

  lemma AddObject(objects: map<string, Bytes>, place: Naming, n: int, bytes: Bytes)
    requires n >= 1 && Placed(objects, place, n) && Injective(place)
    ensures Placed(objects[place(n) := bytes], place, n + 1)
    ensures forall id :: 1 <= id < n ==>
      HasObject(objects, place, id) && objects[place(n) := bytes][place(id)] == objects[place(id)]
  {
    var added := objects[place(n) := bytes];
    forall id | 1 <= id < n + 1 ensures HasObject(added, place, id) {
      assert id < n ==> HasObject(objects, place, id);
    }
    forall id | 1 <= id < n
      ensures HasObject(objects, place, id) && objects[place(n) := bytes][place(id)] == objects[place(id)]
    {
      assert place(id) != place(n);
    }
  }

  /** Writing a new artifact appends one item. */
  lemma AddItem(records: map<string, Artifact>, name: Naming, objects: map<string, Bytes>, place: Naming, n: int,
                a: Artifact, bytes: Bytes)
    requires n >= 1 && Keyed(records, name, n) && Placed(objects, place, n) && Injective(name) && Injective(place)
    requires a.id == n && a.uri == name(n)
    ensures Keyed(records[a.uri := a], name, n + 1) && Placed(objects[place(n) := bytes], place, n + 1)
    ensures Items(records[a.uri := a], name, objects[place(n) := bytes], place, n + 1)
         == Items(records, name, objects, place, n) + [Item(a.(uri := ""), bytes)]
  {
    AddRecord(records, name, n, a);
    AddObject(objects, place, n, bytes);
  }
}

/** artifacts/store.py: the three stores. Each is a different arrangement of the same vault. */
module ArtifactStores {
  import opened Common
  import opened DecimalText
  import opened ArtifactVault
  import opened ArtifactNaming
  import Audit = ComplianceAudit

  function MemoryUri(): Naming { Affixed("memory://artifact/", "") }
  function LocalUri(): Naming { Affixed("local://artifact/", "") }
  function LocalPath(): Naming { Affixed("objects/", ".json") }
  function S3Uri(scheme: string, bucket: string): Naming { Affixed(scheme + "://" + bucket + "/artifacts/", ".json") }
  function ObjectKey(): Naming { Affixed("artifacts/", ".json") }

  /** The scope and permission checks, each leaving its own audit entry when it refuses. */
  method AuthorizeRead(log: Audit.ComplianceAuditLog, a: Artifact, ctx: Context, permissions: set<string>, at: int)
    returns (ok: bool)
    requires log.Valid()
    modifies log
    ensures log.Valid()
    ensures ok <==>
      && a.tenantId == ctx.tenantId && a.projectId == ctx.projectId
      && "artifact:read:" + a.visibility in permissions
    ensures ok ==> log.records == old(log.records)
    ensures !ok ==> log.records == Audit.Appended(old(log.records),
      ReadEntry(a, ctx, "deny",
                if a.tenantId != ctx.tenantId || a.projectId != ctx.projectId then Some("scope_mismatch") else None),
      at, log.redact)
  {
    if a.tenantId != ctx.tenantId || a.projectId != ctx.projectId {
      var _ := log.Write(ReadEntry(a, ctx, "deny", Some("scope_mismatch")), at);
      return false;
    }
    if "artifact:read:" + a.visibility !in permissions {
      var _ := log.Write(ReadEntry(a, ctx, "deny", None), at);
      return false;
    }
    ok := true;
  }

  class InMemoryArtifactStore {
    const auditLog: Audit.ComplianceAuditLog
    const codec: Codec
    var records: map<string, Artifact>
    var objects: map<string, Bytes>
    var nextId: int

    ghost predicate Valid()
      reads this, auditLog
    {
      auditLog.Valid() && nextId >= 1 && Keyed(records, MemoryUri(), nextId) && Placed(objects, MemoryUri(), nextId)
    }

    ghost function View(): Vault
      requires Valid()
      reads this, auditLog
    {
      Vault(Items(records, MemoryUri(), objects, MemoryUri(), nextId), auditLog.records)
    }

    constructor (auditLog: Audit.ComplianceAuditLog, codec: Codec)
      requires auditLog.Valid()
      ensures Valid() && View() == Vault([], auditLog.records) && this.auditLog == auditLog && this.codec == codec
    {
      this.auditLog, this.codec := auditLog, codec;
      records, objects, nextId := map[], map[], 1;
    }

    method WriteJson(req: WriteRequest) returns (a: Artifact)
      requires Valid()
      modifies this
      ensures RecordFits(a, req, old(nextId), codec)
      ensures a.uri == "memory://artifact/" + IntText(a.id)
      ensures Valid() && View() == Written(old(View()), req, codec)
      ensures a == Described(req, old(nextId), MemoryUri()(old(nextId)), codec)
    {
      var encoded, id := codec.encode(req.payload), nextId;
      var uri := MemoryUri()(id);
      a := Described(req, id, uri, codec);
      AffixedInjective("memory://artifact/", "");
      AddItem(records, MemoryUri(), objects, MemoryUri(), nextId, a, encoded);
      nextId := nextId + 1;
      records := records[uri := a];
      objects := objects[uri := encoded];
    }

    method ReadJson(uri: string, ctx: Context, permissions: set<string>, at: int)
      returns (r: Result<Payload, ReadError>)
      requires Valid()
      modifies auditLog
      ensures Valid()
      ensures uri !in records ==> r == Err(UnknownUri) && View() == old(View())
      ensures uri in records ==>
        var o := ReadItem(old(View()).items[records[uri].id - 1], ctx, permissions, codec, false);
        r == o.result && View() == Noted(old(View()), o.entry, at, auditLog.redact)
    {
      if uri !in records {
        return Err(UnknownUri);
      }
      var a := records[uri];
      assert HasObject(objects, MemoryUri(), a.id);
      var ok := AuthorizeRead(auditLog, a, ctx, permissions, at);
      if !ok {
        return Err(AccessDenied);
      }
      var encoded := objects[uri];
      if codec.checksum(encoded) != a.checksum {
        var _ := auditLog.Write(ReadEntry(a, ctx, "deny", Some("checksum_mismatch")), at);
        return Err(ChecksumMismatch);
      }
      var value := codec.parse(encoded);
      if value.None? {
        return Err(Undecodable);
      }
      var _ := auditLog.Write(ReadEntry(a, ctx, "allow", None), at);
      var payload := codec.asDict(value.value);
      r := if payload.None? then Err(NotADict) else Ok(payload.value);
    }
  }

  /** The metadata file of every artifact holds its record. */
  ghost predicate Documented(records: map<string, Artifact>, name: Naming, metadata: map<int, Artifact>, n: int) {
    forall id :: 1 <= id < n ==> DocumentedAt(records, name, metadata, id)
  }

  predicate DocumentedAt(records: map<string, Artifact>, name: Naming, metadata: map<int, Artifact>, id: int) {
    HasRecord(records, name, id) && id in metadata && metadata[id] == records[name(id)]
  }

  lemma AddDocument(records: map<string, Artifact>, name: Naming, metadata: map<int, Artifact>, n: int, a: Artifact)
    requires n >= 1 && Keyed(records, name, n) && Injective(name) && a.id == n && a.uri == name(n)
    requires Documented(records, name, metadata, n)
    ensures Documented(records[a.uri := a], name, metadata[n := a], n + 1)
  {
    AddRecord(records, name, n, a);
    var records', metadata' := records[a.uri := a], metadata[n := a];
    forall id | 1 <= id < n + 1 ensures DocumentedAt(records', name, metadata', id) {
      if id < n {
        assert DocumentedAt(records, name, metadata, id);
      }
    }
  }

  class LocalArtifactStore {
    const auditLog: Audit.ComplianceAuditLog
    const codec: Codec
    var records: map<string, Artifact>
    var files: map<string, Bytes>
    var metadata: map<int, Artifact>
    var nextId: int

    ghost predicate Valid()
      reads this, auditLog
    {
      && auditLog.Valid() && nextId >= 1
      && Keyed(records, LocalUri(), nextId) && Placed(files, LocalPath(), nextId)
      && Documented(records, LocalUri(), metadata, nextId)
    }

    ghost function View(): Vault
      requires Valid()
      reads this, auditLog
    {
      Vault(Items(records, LocalUri(), files, LocalPath(), nextId), auditLog.records)
    }

    constructor (auditLog: Audit.ComplianceAuditLog, codec: Codec)
      requires auditLog.Valid()
      ensures Valid() && View() == Vault([], auditLog.records) && this.auditLog == auditLog && this.codec == codec
    {
      this.auditLog, this.codec := auditLog, codec;
      records, files, metadata, nextId := map[], map[], map[], 1;
    }

    method WriteJson(req: WriteRequest) returns (a: Artifact)
      requires Valid()
      modifies this
      ensures RecordFits(a, req, old(nextId), codec)
      ensures a.uri == "local://artifact/" + IntText(a.id)
      ensures Valid() && View() == Written(old(View()), req, codec)
      ensures a == Described(req, old(nextId), LocalUri()(old(nextId)), codec)
    {
      var encoded, id := codec.encode(req.payload), nextId;
      a := Described(req, id, LocalUri()(id), codec);
      AffixedInjective("local://artifact/", "");
      AffixedInjective("objects/", ".json");
      AddItem(records, LocalUri(), files, LocalPath(), nextId, a, encoded);
      AddDocument(records, LocalUri(), metadata, nextId, a);
      nextId := nextId + 1;
      files := files[LocalPath()(id) := encoded];
      metadata := metadata[id := a];
      records := records[a.uri := a];
    }

    method ReadJson(uri: string, ctx: Context, permissions: set<string>, at: int)
      returns (r: Result<Payload, ReadError>)
      requires Valid()
      modifies auditLog
      ensures Valid()
      ensures uri !in records ==> r == Err(UnknownUri) && View() == old(View())
      ensures uri in records ==>
        var o := ReadItem(old(View()).items[records[uri].id - 1], ctx, permissions, codec, true);
        r == o.result && View() == Noted(old(View()), o.entry, at, auditLog.redact)
    {
      if uri !in records {
        return Err(UnknownUri);
      }
      var a := records[uri];
      assert HasObject(files, LocalPath(), a.id);
      r := ReadChecked(auditLog, codec, a, files[LocalPath()(a.id)], ctx, permissions, at);
    }
  }

  /** Authorize, fetch, verify, audit, decode: the read path of the local and the S3 store. */
  method ReadChecked(log: Audit.ComplianceAuditLog, codec: Codec, a: Artifact, encoded: Bytes, ctx: Context,
                     permissions: set<string>, at: int)
    returns (r: Result<Payload, ReadError>)
    requires log.Valid()
    modifies log
    ensures log.Valid()
    ensures var o := ReadItem(Item(a.(uri := ""), encoded), ctx, permissions, codec, true);
      r == o.result && o.entry.Some? && log.records == Audit.Appended(old(log.records), o.entry.value, at, log.redact)
  {
    var ok := AuthorizeRead(log, a, ctx, permissions, at);
    if !ok {
      return Err(AccessDenied);
    }
    if codec.checksum(encoded) != a.checksum {
      var _ := log.Write(ReadEntry(a, ctx, "deny", Some("checksum_mismatch")), at);
      return Err(ChecksumMismatch);
    }
    var _ := log.Write(ReadEntry(a, ctx, "allow", None), at);
    var value := codec.parse(encoded);
    if value.None? {
      return Err(Undecodable);
    }
    var payload := codec.asDict(value.value);
    r := if payload.None? then Err(NotADict) else Ok(payload.value);
  }

  /** A local uri ends in a digit, an S3 one in .json: re-keying never hits another record. */
  lemma LocalUriIsNoS3Uri(scheme: string, bucket: string, m: int, n: int)
    ensures LocalUri()(m) != S3Uri(scheme, bucket)(n)
  {
    var local, s3 := LocalUri()(m), S3Uri(scheme, bucket)(n);
    var k: nat := if m < 0 then -m else m;
    NatTextDigits(k);
    assert IntText(m)[|IntText(m)| - 1] == NatText(k)[|NatText(k)| - 1];
    assert local[|local| - 1] == IntText(m)[|IntText(m)| - 1];
    assert s3[|s3| - 1] == 'n';
  }

  class S3CompatibleArtifactStore {
    const auditLog: Audit.ComplianceAuditLog
    const codec: Codec
    const scheme: string
    const bucket: string
    const hasClient: bool
    var records: map<string, Artifact>
    var files: map<string, Bytes>
    var metadata: map<int, Artifact>
    var remote: map<string, Bytes>
    var nextId: int

    /** With an object client the bytes that count are the remote ones. */
    function Contents(): map<string, Bytes>
      reads this
    {
      if hasClient then remote else files
    }

    function Place(): Naming {
      if hasClient then ObjectKey() else LocalPath()
    }

    ghost predicate Valid()
      reads this, auditLog
    {
      && auditLog.Valid() && nextId >= 1
      && Keyed(records, S3Uri(scheme, bucket), nextId) && Placed(Contents(), Place(), nextId)
      && Documented(records, S3Uri(scheme, bucket), metadata, nextId)
    }

    ghost function View(): Vault
      requires Valid()
      reads this, auditLog
    {
      Vault(Items(records, S3Uri(scheme, bucket), Contents(), Place(), nextId), auditLog.records)
    }

    constructor (auditLog: Audit.ComplianceAuditLog, codec: Codec, scheme: string, bucket: string, hasClient: bool)
      requires auditLog.Valid()
      ensures Valid() && View() == Vault([], auditLog.records) && this.auditLog == auditLog && this.codec == codec
    {
      this.auditLog, this.codec, this.scheme, this.bucket, this.hasClient := auditLog, codec, scheme, bucket, hasClient;
      records, files, metadata, remote, nextId := map[], map[], map[], map[], 1;
    }

    /** The local store's write, which the S3 one builds on. */
    method WriteLocal(req: WriteRequest) returns (local: Artifact)
      modifies this`nextId, this`files, this`metadata, this`records
      ensures local == Described(req, old(nextId), LocalUri()(old(nextId)), codec)
      ensures nextId == old(nextId) + 1 && files == old(files)[LocalPath()(old(nextId)) := codec.encode(req.payload)]
      ensures metadata == old(metadata)[old(nextId) := local] && records == old(records)[local.uri := local]
    {
      local := Described(req, nextId, LocalUri()(nextId), codec);
      files := files[LocalPath()(nextId) := codec.encode(req.payload)];
      metadata := metadata[nextId := local];
      records := records[local.uri := local];
      nextId := nextId + 1;
    }

    lemma LocalUriIsFree(id: int)
      requires Valid()
      ensures LocalUri()(id) !in records
    {
      forall n ensures S3Uri(scheme, bucket)(n) != LocalUri()(id) {
        LocalUriIsNoS3Uri(scheme, bucket, id, n);
      }
    }

    /** The local write, the re-keying to the S3 uri, and the upload. */
    method WriteFields(req: WriteRequest) returns (a: Artifact)
      requires LocalUri()(nextId) !in records
      modifies this
      ensures a == Described(req, old(nextId), S3Uri(scheme, bucket)(old(nextId)), codec)
      ensures nextId == old(nextId) + 1 && records == old(records)[a.uri := a] && metadata == old(metadata)[a.id := a]
      ensures Contents() == old(Contents())[Place()(a.id) := codec.encode(req.payload)]
    {
      var local := WriteLocal(req);
      a := local.(uri := S3Uri(scheme, bucket)(local.id));
      records := records - {local.uri};
      assert records == old(records);
      records := records[a.uri := a];
      metadata := metadata[a.id := a];
      assert metadata == old(metadata)[a.id := a];
      if hasClient {
        remote := remote[ObjectKey()(a.id) := files[LocalPath()(a.id)]];
      }
    }

    method WriteJson(req: WriteRequest) returns (a: Artifact)
      requires Valid()
      modifies this
      ensures RecordFits(a, req, old(nextId), codec)
      ensures a.uri == scheme + "://" + bucket + "/artifacts/" + IntText(a.id) + ".json"
      ensures Valid() && View() == Written(old(View()), req, codec)
      ensures a == Described(req, old(nextId), S3Uri(scheme, bucket)(old(nextId)), codec)
    {
      ghost var a' := Described(req, nextId, S3Uri(scheme, bucket)(nextId), codec);
      AffixedInjective(scheme + "://" + bucket + "/artifacts/", ".json");
      AffixedInjective("objects/", ".json");
      AffixedInjective("artifacts/", ".json");
      AddItem(records, S3Uri(scheme, bucket), Contents(), Place(), nextId, a', codec.encode(req.payload));
      AddDocument(records, S3Uri(scheme, bucket), metadata, nextId, a');
      LocalUriIsFree(nextId);
      a := WriteFields(req);
    }

    method ReadJson(uri: string, ctx: Context, permissions: set<string>, at: int)
      returns (r: Result<Payload, ReadError>)
      requires Valid()
      modifies auditLog
      ensures Valid()
      ensures uri !in records ==> r == Err(UnknownUri) && View() == old(View())
      ensures uri in records ==>
        var o := ReadItem(old(View()).items[records[uri].id - 1], ctx, permissions, codec, true);
        r == o.result && View() == Noted(old(View()), o.entry, at, auditLog.redact)
    {
      if uri !in records {
        return Err(UnknownUri);
      }
      var a := records[uri];
      assert HasObject(Contents(), Place(), a.id);
      var encoded := if hasClient then remote[ObjectKey()(a.id)] else files[LocalPath()(a.id)];
      r := ReadChecked(auditLog, codec, a, encoded, ctx, permissions, at);
    }
  }
}
