/** The append-only correction ledger: its rows, the lookup that re-verifies a whole
    history, and the atomic effect of preview, apply and recover.  One `BEGIN IMMEDIATE`
    transaction is one step; a refusal or a crash leaves the database as it was. */
module CorrectionLedger {
  import opened Prelude
  import opened Bytes

  const MAX_EPOCH := 253402300799
  const PLAN_SECONDS := 600

  datatype Refusal = Malformed | Conflict | Integrity

  datatype Fields = Fields(amount: string, currency: string, transactionDate: string, merchant: Option<string>)

  datatype Route = Text | Receipt

  datatype SnapshotRef = SnapshotRef(id: string, hash: string)

  datatype ReceiptOrigin = ReceiptOrigin(receiptId: string, factSetId: string, snapshot: SnapshotRef)

  /** What the source port attests about the original transaction. */
  datatype Source = Source(
    targetId: string, route: Route, actor: string, fields: Fields, sourceHash: string,
    originalHash: string, projectionHash: string, sourceJson: ByteString, receipt: Option<ReceiptOrigin>)

  datatype Binding = Binding(actor: string, keyId: string, realm: string, instanceId: string)

  datatype ReceiptPlan = ReceiptPlan(factId: string, factHash: string, snapshot: SnapshotRef, json: ByteString)

  /** The sealed part of a plan, in the order the seal lists it. */
  datatype PlanBody = PlanBody(
    planId: string, correctionId: string, authorityId: string, targetId: string, route: Route,
    expectedVersion: nat, predecessorId: Option<string>, predecessorHash: string,
    before: Fields, beforeHash: string, after: Fields, afterHash: string, sourceHash: string,
    reason: string, actor: string, realm: string, keyId: string, instanceId: string,
    receipt: Option<ReceiptPlan>, createdAt: int, expiresAt: int)

  datatype Plan = Plan(body: PlanBody, planHash: string)

  datatype ReceiptIds = ReceiptIds(factId: string, factHash: string, snapshot: SnapshotRef)

  datatype ResultCore = ResultCore(
    correctionId: string, targetId: string, version: nat, predecessorId: Option<string>,
    predecessorHash: string, planId: string, planHash: string, authorityId: string,
    decisionDigest: string, sourceHash: string, beforeHash: string, afterHash: string,
    reason: string, actor: string, applyEpoch: int, applyUtc: string, instanceId: string,
    receipt: Option<ReceiptIds>, snapshotCreatedAt: Option<string>)

  datatype Signed = Signed(envelope: string, signature: string)

  datatype Envelope = Envelope(
    planId: string, planHash: string, authorityId: string, targetId: string, sourceHash: string,
    actor: string, instanceId: string, issuedAt: int, expiresAt: int, nonce: string)

  datatype Verified = Verified(envelope: Envelope, digest: string, checkedAt: int, correctionId: string)

  datatype Seal = Seal(material: string, seal: string)

  datatype Proof = Proof(digest: string, checkedAt: int)

  datatype MaterialRequest = MaterialRequest(
    source: Source, after: Fields, factId: string, snapshotId: string, authorityId: string,
    planId: string, previous: SnapshotRef, createdAt: string)

  datatype Material = Material(
    json: ByteString, factHash: string, snapshotHash: string, output: string, frozenSelf: string)

  /** Raw edits; an absent key is `None`. */
  datatype Changes = Changes(
    amount: Option<string>, currency: Option<string>, date: Option<string>, merchant: Option<string>)

  /** The digests in use: SHA-256 of bytes and of a field projection, and the tagged
      digests of fields, plans and results (see CorrectionSeal for their construction). */
  datatype Hashing = Hashing(
    sha: ByteString -> string, projection: Fields -> string,
    fields: Fields -> string, plan: PlanBody -> string, core: ResultCore -> string)

  /** Trusted ports, fixed for the life of the service. */
  datatype Ports = Ports(
    hashing: Hashing,
    utc: int -> string,
    canonicalAmount: (string, string) -> Option<string>,
    canonicalCurrency: string -> Option<string>,
    canonicalDate: string -> Option<string>,
    canonicalText: (string, nat) -> Option<string>,
    original: string -> Option<Source>,
    binding: string -> Binding,
    verifyFresh: (Signed, Plan, int) -> Option<Verified>,
    seal: (Verified, string) -> Seal,
    verifyHistory: (Signed, Seal, Plan, string, int) -> Option<Proof>,
    receiptMaterial: MaterialRequest -> Option<Material>,
    historicalMaterial: (MaterialRequest, ByteString, SnapshotRef, string, string) -> bool)

  // ------------------------------------------------------------------ rows

  datatype Anchor = Anchor(source: Source, realm: string, keyId: string)

  /** The columns a version repeats from its plan. */
  datatype Mirror = Mirror(
    correctionId: string, authorityId: string, route: Route, sourceHash: string,
    before: Fields, beforeHash: string, after: Fields, afterHash: string,
    reason: string, actor: string, instanceId: string, receipt: Option<ReceiptIds>)

  datatype Version = Version(
    targetId: string, version: nat, predecessorVersion: Option<nat>, predecessorId: Option<string>,
    predecessorHash: string, planId: string, mirror: Mirror, core: ResultCore, resultHash: string,
    applyEpoch: int, applyUtc: string, snapshotCreatedAt: Option<string>)

  datatype Authority = Authority(
    authorityId: string, correctionId: string, targetId: string, resultHash: string, nonce: string,
    decision: Signed, digest: string, checkedAt: int, instanceId: string, seal: Seal)

  datatype ReceiptFact = ReceiptFact(
    factId: string, targetId: string, snapshot: SnapshotRef, factHash: string, json: ByteString,
    frozenSelf: string, origin: ReceiptOrigin, previous: SnapshotRef, snapshotCreatedAt: string)

  datatype Snapshot = Snapshot(hash: string, createdAt: string, authorityId: string)

  datatype AuditEvent = AuditEvent(
    correctionId: string, planId: string, authorityId: string, actor: string, resultHash: string,
    sourceHash: string, beforeHash: string, version: nat, fields: Fields, createdAt: string,
    snapshot: Option<SnapshotRef>)

  /** Plans and authorities are keyed by plan, receipt facts by correction, the rest by
      target or snapshot; `versions` holds a target's rows in version order. */
  datatype Database = Database(
    anchors: map<string, Anchor>, plans: map<string, Plan>, versions: map<string, seq<Version>>,
    authorities: map<string, Authority>, facts: map<string, ReceiptFact>,
    snapshots: map<string, Snapshot>, audit: map<string, seq<AuditEvent>>)

  const EMPTY := Database(map[], map[], map[], map[], map[], map[], map[])

  // ---------------------------------------------------------------- lookup

  datatype Item = Item(
    correctionId: string, version: nat, planId: string, authorityId: string, before: Fields,
    after: Fields, reason: string, actor: string, appliedAt: int, resultHash: string,
    snapshot: Option<SnapshotRef>)

  datatype Effective = Effective(
    targetId: string, route: Route, version: nat, fields: Fields, history: seq<Item>, source: Source)

  /** What the next correction must build on. */
  datatype Tip = Tip(fields: Fields, id: Option<string>, hash: string, snapshot: Option<SnapshotRef>)

  function TipOf(s: Source, history: seq<Item>): Tip {
    if history == [] then
      Tip(s.fields, None, s.projectionHash, if s.receipt.Some? then Some(s.receipt.value.snapshot) else None)
    else
      var last := history[|history| - 1];
      Tip(last.after, Some(last.correctionId), last.resultHash, last.snapshot)
  }

  predicate PositiveEpoch(t: int) { 0 < t <= MAX_EPOCH }

  predicate SourceVerified(p: Ports, s: Source, target: string) {
    && s.targetId == target
    && s.actor != ""
    && p.hashing.sha(s.sourceJson) == s.sourceHash
    && p.hashing.projection(s.fields) == s.projectionHash
    && (s.route == Receipt ==> s.receipt.Some?)
  }

  /** A stored plan still carries its own seal. */
  predicate PlanSealed(h: Hashing, plan: Plan) {
    && PositiveEpoch(plan.body.createdAt)
    && PositiveEpoch(plan.body.expiresAt)
    && plan.body.beforeHash == h.fields(plan.body.before)
    && plan.body.afterHash == h.fields(plan.body.after)
    && plan.planHash == h.plan(plan.body)
    && plan.body.expiresAt == plan.body.createdAt + PLAN_SECONDS
  }

  function IdsOf(r: Option<ReceiptPlan>): Option<ReceiptIds> {
    match r
    case None => None
    case Some(x) => Some(ReceiptIds(x.factId, x.factHash, x.snapshot))
  }

  function SnapshotOf(r: Option<ReceiptPlan>): Option<SnapshotRef> {
    match r
    case None => None
    case Some(x) => Some(x.snapshot)
  }

  function MirrorOf(b: PlanBody): Mirror {
    Mirror(b.correctionId, b.authorityId, b.route, b.sourceHash, b.before, b.beforeHash, b.after,
           b.afterHash, b.reason, b.actor, b.instanceId, IdsOf(b.receipt))
  }

  function CoreOf(p: Ports, plan: Plan, version: nat, digest: string, epoch: int,
                  snapshotAt: Option<string>): ResultCore {
    var b := plan.body;
    ResultCore(b.correctionId, b.targetId, version, b.predecessorId, b.predecessorHash, b.planId, plan.planHash,
               b.authorityId, digest, b.sourceHash, b.beforeHash, b.afterHash, b.reason, b.actor, epoch,
               p.utc(epoch), b.instanceId, IdsOf(b.receipt), snapshotAt)
  }

  function AuditOf(p: Ports, b: PlanBody, resultHash: string, version: nat, epoch: int): AuditEvent {
    AuditEvent(b.correctionId, b.planId, b.authorityId, b.actor, resultHash, b.sourceHash, b.beforeHash,
               version, b.after, p.utc(epoch), SnapshotOf(b.receipt))
  }

  function PredecessorVersion(version: nat): Option<nat> {
    if version <= 1 then None else Some(version - 1)
  }

  predicate Linked(s: Source, plan: PlanBody, row: Version, version: nat, tip: Tip) {
    && row.targetId == s.targetId && row.version == version
    && row.predecessorVersion == PredecessorVersion(version)
    && row.predecessorId == tip.id && row.predecessorHash == tip.hash
    && version == plan.expectedVersion + 1
    && plan.predecessorId == tip.id && plan.predecessorHash == tip.hash
    && plan.targetId == s.targetId && plan.route == s.route && plan.actor == s.actor
    && plan.sourceHash == s.sourceHash && plan.before == tip.fields
    && row.mirror == MirrorOf(plan)
  }

  predicate Authorised(p: Ports, db: Database, plan: Plan, row: Version) {
    && row.planId in db.authorities
    && var a := db.authorities[row.planId];
    && a.authorityId == plan.body.authorityId && a.correctionId == plan.body.correctionId
    && a.targetId == plan.body.targetId && a.resultHash == row.resultHash
    && a.instanceId == plan.body.instanceId && a.checkedAt == row.applyEpoch
    && PositiveEpoch(row.applyEpoch)
    && row.applyUtc == p.utc(row.applyEpoch)
    && p.verifyHistory(a.decision, a.seal, plan, row.resultHash, row.applyEpoch)
       == Some(Proof(a.digest, row.applyEpoch))
    && row.core == CoreOf(p, plan, row.version, a.digest, row.applyEpoch, row.snapshotCreatedAt)
    && row.resultHash == p.hashing.core(row.core)
  }

  function MaterialFor(s: Source, plan: PlanBody, r: ReceiptPlan, previous: SnapshotRef, at: string): MaterialRequest {
    MaterialRequest(s, plan.after, r.factId, r.snapshot.id, plan.authorityId, plan.planId, previous, at)
  }

  predicate ReceiptVerified(p: Ports, db: Database, s: Source, plan: PlanBody, row: Version, tip: Tip) {
    && plan.receipt.Some? && s.receipt.Some? && tip.snapshot.Some? && row.snapshotCreatedAt.Some?
    && plan.correctionId in db.facts && plan.receipt.value.snapshot.id in db.snapshots
    && var r := plan.receipt.value;
    var f := db.facts[plan.correctionId];
    var snap := db.snapshots[r.snapshot.id];
    var at := row.snapshotCreatedAt.value;
    && f.factId == r.factId && f.targetId == plan.targetId && f.snapshot == r.snapshot
    && f.factHash == r.factHash && f.json == r.json && f.origin == s.receipt.value
    && f.snapshotCreatedAt == at && at == p.utc(row.applyEpoch)
    && p.hashing.sha(f.json) == r.factHash
    && f.previous == tip.snapshot.value
    && p.historicalMaterial(MaterialFor(s, plan, r, f.previous, at), f.json, f.snapshot, f.factHash, f.frozenSelf)
    && snap.hash == r.snapshot.hash && snap.authorityId == plan.authorityId && snap.createdAt == at
  }

  /** Every check one stored version must pass, given what precedes it. */
  predicate VersionVerified(p: Ports, db: Database, s: Source, row: Version, version: nat, tip: Tip) {
    && row.planId in db.plans
    && var plan := db.plans[row.planId];
    && plan.body.planId == row.planId
    && PlanSealed(p.hashing, plan)
    && Linked(s, plan.body, row, version, tip)
    && Authorised(p, db, plan, row)
    && (s.route == Receipt ==> ReceiptVerified(p, db, s, plan.body, row, tip))
    && 0 < version <= |Rows(db.audit, s.targetId)|
    && Rows(db.audit, s.targetId)[version - 1] == AuditOf(p, plan.body, row.resultHash, version, row.applyEpoch)
  }

  function ItemOf(b: PlanBody, row: Version): Item {
    Item(b.correctionId, row.version, b.planId, b.authorityId, b.before, b.after, b.reason, b.actor,
         row.applyEpoch, row.resultHash, SnapshotOf(b.receipt))
  }

  /** The verified history of the first `n` rows; `None` when one of them fails. */
  function Verify(p: Ports, db: Database, s: Source, rows: seq<Version>, n: nat): (r: Option<seq<Item>>)
    requires n <= |rows|
    ensures r.Some? ==> |r.value| == n
  {
    if n == 0 then Some([])
    else
      match Verify(p, db, s, rows, n - 1)
      case None => None
      case Some(history) =>
        var row := rows[n - 1];
        if VersionVerified(p, db, s, row, n, TipOf(s, history))
        then Some(history + [ItemOf(db.plans[row.planId].body, row)])
        else None
  }

  predicate AnchorMatches(db: Database, s: Source, b: Binding) {
    s.targetId in db.anchors ==> db.anchors[s.targetId] == Anchor(s, b.realm, b.keyId)
  }

  /** The audit trail names exactly the stored corrections, in order. */
  predicate AuditInventory(rows: seq<Version>, events: seq<AuditEvent>) {
    && |events| == |rows|
    && forall i | 0 <= i < |rows| :: events[i].correctionId == rows[i].mirror.correctionId
  }

  predicate OneInstance(db: Database, rows: seq<Version>, b: Binding) {
    rows == [] ||
    (set i | 0 <= i < |rows| && rows[i].planId in db.plans :: db.plans[rows[i].planId].body.instanceId)
    == {b.instanceId}
  }

  function Lookup(p: Ports, db: Database, target: string): Result<Effective, Refusal> {
    if target == "" then Err(Malformed)
    else if p.original(target).None? then Err(Integrity)
    else
      var s := p.original(target).value;
      var b := p.binding(s.actor);
      var rows := Rows(db.versions, target);
      if !SourceVerified(p, s, target) || b.actor != s.actor || !AnchorMatches(db, s, b)
         || !AuditInventory(rows, Rows(db.audit, target)) || !OneInstance(db, rows, b) then Err(Integrity)
      else
        match Verify(p, db, s, rows, |rows|)
        case None => Err(Integrity)
        case Some(history) => Ok(Effective(target, s.route, |history|, TipOf(s, history).fields, history, s))
  }

  // --------------------------------------------------------------- preview

  /** Applies a text canonicaliser to an edit that is present. */
  function Canonical(f: string -> Option<string>, edit: Option<string>): Option<Option<string>> {
    match edit
    case None => Some(None)
    case Some(raw) => match f(raw) case None => None case Some(text) => Some(Some(text))
  }

  function CanonicalChanges(p: Ports, c: Changes): Option<Changes> {
    if c == Changes(None, None, None, None) || (c.currency.Some? && c.amount.None?) then None
    else
      var currency := Canonical(p.canonicalCurrency, c.currency);
      if currency.None? then None
      else
        var amount :=
          if currency.value.Some? then Canonical(raw => p.canonicalAmount(raw, currency.value.value), c.amount)
          else Some(c.amount);
        var date := Canonical(p.canonicalDate, c.date);
        var merchant := Canonical(raw => p.canonicalText(raw, 1024), c.merchant);
        if amount.None? || date.None? || merchant.None? then None
        else Some(Changes(amount.value, currency.value, date.value, merchant.value))
  }

  /** The fields after one canonical edit; `None` when the amount does not fit its currency. */
  function AfterFields(p: Ports, before: Fields, c: Changes): Option<Fields> {
    var currency := if c.currency.Some? then c.currency.value else before.currency;
    var amount := if c.amount.Some? then p.canonicalAmount(c.amount.value, currency) else Some(before.amount);
    if amount.None? then None
    else Some(Fields(amount.value, currency,
                     if c.date.Some? then c.date.value else before.transactionDate,
                     if c.merchant.Some? then c.merchant else before.merchant))
  }

  /** Identifiers drawn at random by one preview. */
  datatype Fresh = Fresh(planId: string, correctionId: string, authorityId: string, factId: string, snapshotId: string)

  /** The uniqueness the plan table enforces. */
  predicate PlanInsertable(db: Database, plan: Plan) {
    && plan.body.planId !in db.plans
    && forall k | k in db.plans ::
         var q := db.plans[k];
         && q.body.correctionId != plan.body.correctionId
         && q.body.authorityId != plan.body.authorityId
         && q.planHash != plan.planHash
         && (q.body.receipt.Some? && plan.body.receipt.Some? ==>
               && q.body.receipt.value.factId != plan.body.receipt.value.factId
               && q.body.receipt.value.snapshot.id != plan.body.receipt.value.snapshot.id)
  }

  function ReceiptFor(p: Ports, e: Effective, after: Fields, ids: Fresh, at: string): Option<Option<ReceiptPlan>> {
    var tip := TipOf(e.source, e.history);
    if e.route == Text then Some(None)
    else if tip.snapshot.None? then None
    else
      match p.receiptMaterial(MaterialRequest(e.source, after, ids.factId, ids.snapshotId, ids.authorityId,
                                              ids.planId, tip.snapshot.value, at))
      case None => None
      case Some(m) => Some(Some(ReceiptPlan(ids.factId, m.factHash, SnapshotRef(ids.snapshotId, m.snapshotHash),
        m.json)))
  }

  function PlanFor(p: Ports, e: Effective, after: Fields, reason: string, ids: Fresh, receipt: Option<ReceiptPlan>,
                   now: int): Plan {
    var tip := TipOf(e.source, e.history);
    var b := p.binding(e.source.actor);
    var body := PlanBody(ids.planId, ids.correctionId, ids.authorityId, e.targetId, e.route, e.version,
                         tip.id, tip.hash, e.fields, p.hashing.fields(e.fields), after, p.hashing.fields(after),
                         e.source.sourceHash, reason, e.source.actor, b.realm, b.keyId, b.instanceId, receipt,
                         now, now + PLAN_SECONDS);
    Plan(body, p.hashing.plan(body))
  }

  function Preview(p: Ports, db: Database, target: string, raw: Changes, rawReason: string, ids: Fresh, now: int,
                   eligible: bool)
    : Result<(Database, Plan), Refusal>
  {
    var changes := CanonicalChanges(p, raw);
    var reason := p.canonicalText(rawReason, 2048);
    if changes.None? || reason.None? then Err(Malformed)
    else
      match Lookup(p, db, target)
      case Err(e) => Err(e)
      case Ok(effective) =>
        var after := AfterFields(p, effective.fields, changes.value);
        if after.None? || after.value == effective.fields || !eligible || !PositiveEpoch(now) then Err(Malformed)
        else
          match ReceiptFor(p, effective, after.value, ids, p.utc(now))
          case None => Err(Malformed)
          case Some(receipt) =>
            var plan := PlanFor(p, effective, after.value, reason.value, ids, receipt, now);
            if !PlanInsertable(db, plan) then Err(Conflict)
            else
              var anchor := Anchor(effective.source, plan.body.realm, plan.body.keyId);
              Ok((db.(anchors := db.anchors[target := anchor], plans := db.plans[ids.planId := plan]), plan))
  }

  // ----------------------------------------------------------------- apply

  datatype Applied = Applied(applied: Item, current: Effective, recovered: bool)

  predicate PlanCurrent(plan: PlanBody, e: Effective) {
    var tip := TipOf(e.source, e.history);
    && e.version == plan.expectedVersion
    && plan.predecessorId == tip.id && plan.predecessorHash == tip.hash
    && plan.before == e.fields && plan.sourceHash == e.source.sourceHash
  }

  predicate Bound(b: Binding, plan: PlanBody) {
    b == Binding(plan.actor, plan.keyId, plan.realm, plan.instanceId)
  }

  predicate DecisionBinds(plan: Plan, v: Verified) {
    && v.correctionId == plan.body.correctionId
    && PositiveEpoch(v.checkedAt)
    && v.envelope.planId == plan.body.planId && v.envelope.planHash == plan.planHash
    && v.envelope.authorityId == plan.body.authorityId && v.envelope.targetId == plan.body.targetId
    && v.envelope.sourceHash == plan.body.sourceHash && v.envelope.actor == plan.body.actor
    && v.envelope.instanceId == plan.body.instanceId
    && v.envelope.issuedAt <= v.checkedAt <= v.envelope.expiresAt
    && v.checkedAt <= plan.body.expiresAt
  }

  /** The receipt calculation of a plan, made again at time `at`, equals what was signed. */
  function ReceiptAgain(p: Ports, s: Source, plan: PlanBody, previous: Option<SnapshotRef>,
                        at: string): Option<Material> {
    if plan.receipt.None? || previous.None? then None
    else
      var r := plan.receipt.value;
      match p.receiptMaterial(MaterialFor(s, plan, r, previous.value, at))
      case None => None
      case Some(m) =>
        if m.json == r.json && m.factHash == r.factHash && m.snapshotHash == r.snapshot.hash then Some(m) else None
  }

  function VersionFor(p: Ports, plan: Plan, v: Verified): Version {
    var b := plan.body;
    var version := b.expectedVersion + 1;
    var at := if b.route == Receipt then Some(p.utc(v.checkedAt)) else None;
    var core := CoreOf(p, plan, version, v.digest, v.checkedAt, at);
    Version(b.targetId, version, PredecessorVersion(version), b.predecessorId, b.predecessorHash, b.planId, MirrorOf(b),
            core, p.hashing.core(core), v.checkedAt, p.utc(v.checkedAt), at)
  }

  function AuthorityFor(p: Ports, plan: Plan, d: Signed, v: Verified, resultHash: string): Authority {
    Authority(plan.body.authorityId, plan.body.correctionId, plan.body.targetId, resultHash, v.envelope.nonce, d,
              v.digest, v.checkedAt, plan.body.instanceId, p.seal(v, resultHash))
  }

  /** The uniqueness the version, authority and receipt tables enforce. */
  predicate VersionInsertable(db: Database, row: Version, a: Authority) {
    && row.planId !in db.authorities
    && (forall k | k in db.authorities ::
          var o := db.authorities[k];
          o.authorityId != a.authorityId && o.correctionId != a.correctionId && o.nonce != a.nonce
          && o.digest != a.digest)
    && (forall t | t in db.versions :: forall i | 0 <= i < |db.versions[t]| ::
          var o := db.versions[t][i];
          && o.mirror.correctionId != row.mirror.correctionId && o.planId != row.planId
          && o.mirror.authorityId != row.mirror.authorityId && o.resultHash != row.resultHash
          && (t == row.targetId ==> o.version != row.version))
    && (row.mirror.receipt.Some? ==>
          && row.mirror.correctionId !in db.facts
          && row.mirror.receipt.value.snapshot.id !in db.snapshots)
  }

  function Append<T>(table: map<string, seq<T>>, k: string, row: T): map<string, seq<T>> {
    table[k := Rows(table, k) + [row]]
  }

  /** The rows one commit adds; a receipt also stores its fact and its snapshot. */
  function Commit(p: Ports, db: Database, s: Source, plan: Plan, row: Version, a: Authority,
                  receipt: Option<Material>, previous: Option<SnapshotRef>): Database
  {
    var b := plan.body;
    var base := db.(versions := Append(db.versions, b.targetId, row),
                    authorities := db.authorities[b.planId := a],
                    audit := Append(db.audit, b.targetId, AuditOf(p, b, row.resultHash, row.version, row.applyEpoch)));
    if receipt.Some? && b.receipt.Some? && previous.Some? && s.receipt.Some? then
      var r := b.receipt.value;
      var at := p.utc(row.applyEpoch);
      base.(facts := db.facts[b.correctionId := ReceiptFact(r.factId, b.targetId, r.snapshot, r.factHash,
                                                            receipt.value.json, receipt.value.frozenSelf,
                                                            s.receipt.value, previous.value, at)],
            snapshots := db.snapshots[r.snapshot.id := Snapshot(r.snapshot.hash, at, b.authorityId)])
    else base
  }

  /** The database after a first consumption of an unconsumed plan. */
  function Consume(p: Ports, db: Database, plan: Plan, d: Signed, now: int, eligible: bool): Result<Database, Refusal> {
    var b := plan.body;
    match Lookup(p, db, b.targetId)
    case Err(e) => Err(e)
    case Ok(effective) =>
      if !PlanCurrent(b, effective) then Err(Conflict)
      else if !eligible then Err(Malformed)
      else if !Bound(p.binding(b.actor), b) then Err(Conflict)
      else
        var previous := TipOf(effective.source, effective.history).snapshot;
        var first := ReceiptAgain(p, effective.source, b, previous, p.utc(b.createdAt));
        if b.route == Receipt && first.None? then Err(Conflict)
        else
          match p.verifyFresh(d, plan, now)
          case None => Err(Integrity)
          case Some(v) =>
            if !DecisionBinds(plan, v) then Err(Integrity)
            else
              var second := ReceiptAgain(p, effective.source, b, previous, p.utc(v.checkedAt));
              if b.route == Receipt && (second.None? || second.value.output != first.value.output) then Err(Conflict)
              else
                var row := VersionFor(p, plan, v);
                var a := AuthorityFor(p, plan, d, v, row.resultHash);
                if !VersionInsertable(db, row, a) then Err(Conflict)
                else Ok(Commit(p, db, effective.source, plan, row, a,
                    if b.route == Receipt then second else None, previous))
  }

  /** The first entry of a history made by a correction. */
  function Find(history: seq<Item>, correctionId: string): (r: Option<Item>)
    ensures r.Some? ==> r.value in history && r.value.correctionId == correctionId
    ensures r.None? ==> forall i | 0 <= i < |history| :: history[i].correctionId != correctionId
  {
    if history == [] then None
    else if history[0].correctionId == correctionId then Some(history[0])
    else Find(history[1..], correctionId)
  }

  function Replay(p: Ports, db: Database, plan: Plan): Result<Applied, Refusal> {
    match Lookup(p, db, plan.body.targetId)
    case Err(e) => Err(e)
    case Ok(current) =>
      match Find(current.history, plan.body.correctionId)
      case None => Err(Integrity)
      case Some(item) => Ok(Applied(item, current, true))
  }

  function Apply(p: Ports, db: Database, planId: string, d: Signed, now: int,
                 eligible: bool): Result<Database, Refusal> {
    if planId !in db.plans then Err(Malformed)
    else
      var plan := db.plans[planId];
      if plan.body.planId != planId || !PlanSealed(p.hashing, plan) then Err(Integrity)
      else if planId in db.authorities then
        if db.authorities[planId].decision != d then Err(Conflict)
        else match Replay(p, db, plan) case Err(e) => Err(e) case Ok(_) => Ok(db)
      else Consume(p, db, plan, d, now, eligible)
  }

  function FindPlan(history: seq<Item>, planId: string): (r: Option<Item>)
    ensures r.Some? ==> r.value in history && r.value.planId == planId
    ensures r.None? ==> forall i | 0 <= i < |history| :: history[i].planId != planId
  {
    if history == [] then None
    else if history[0].planId == planId then Some(history[0])
    else FindPlan(history[1..], planId)
  }

  /** Reply-loss recovery: what the plan made, or the explicit fact that it made nothing. */
  function Recover(p: Ports, db: Database, planId: string): Result<Option<Applied>, Refusal> {
    if planId !in db.plans then Err(Malformed)
    else
      var plan := db.plans[planId];
      if plan.body.planId != planId || !PlanSealed(p.hashing, plan) then Err(Integrity)
      else
        match Lookup(p, db, plan.body.targetId)
        case Err(e) => Err(e)
        case Ok(current) =>
          if !Bound(p.binding(plan.body.actor), plan.body) then Err(Conflict)
          else
            match FindPlan(current.history, planId)
            case None => Ok(None)
            case Some(item) => Ok(Some(Applied(item, current, true)))
  }

  // ------------------------------------------------------------------ runs

  datatype Op =
    | DoPreview(target: string, changes: Changes, reason: string, ids: Fresh, now: int, eligible: bool)
    | DoApply(planId: string, decision: Signed, now: int, eligible: bool)
    | DoRecover(planId: string)
    | Crash

  function Step(p: Ports, db: Database, op: Op): Database {
    match op
    case DoPreview(t, c, r, ids, now, eligible) =>
      (match Preview(p, db, t, c, r, ids, now, eligible) case Ok(x) => x.0 case Err(_) => db)
    case DoApply(id, d, now, eligible) =>
      (match Apply(p, db, id, d, now, eligible) case Ok(x) => x case Err(_) => db)
    case DoRecover(_) => db
    case Crash => db
  }

  function Run(p: Ports, db: Database, ops: seq<Op>): Database {
    if ops == [] then db else Step(p, Run(p, db, ops[..|ops| - 1]), ops[|ops| - 1])
  }
}
