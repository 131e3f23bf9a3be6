/** Optimistic concurrency of corrections: no lost update, no ABA, exactly-once replay. */
module CorrectionConcurrency {
  import opened Prelude
  import opened CorrectionLedger
  import opened CorrectionHistory
  import opened CorrectionRuns

  /** A plan that was not consumed before its target moved past its predecessor version. */
  predicate Stale(db: Database, id: string) {
    && id in db.plans && id !in db.authorities
    && db.plans[id].body.expectedVersion < |Rows(db.versions, db.plans[id].body.targetId)|
  }

  /** Nothing, not even a later correction that restores the same fields, revives a stale plan. */
  lemma StaleIsRefused(p: Ports, db: Database, id: string, d: Signed, now: int, eligible: bool)
    requires Stale(db, id)
    ensures Apply(p, db, id, d, now, eligible).Err?
  {
    hide Lookup, Consume, PlanSealed;
    if Apply(p, db, id, d, now, eligible).Ok? {
      ConsumeTables(p, db, db.plans[id], d, now, eligible);
    }
  }

  lemma StaleAfterStep(p: Ports, db: Database, op: Op, id: string)
    requires Stale(db, id)
    ensures Stale(Step(p, db, op), id)
  {
    hide Lookup, Preview, Consume, PlanSealed, PlanFits, CanonicalChanges, AfterFields, Append, AuditOf, VersionFor,
      Usable;
    match op
    case DoPreview(t, c, r, ids, now, eligible) =>
      if Preview(p, db, t, c, r, ids, now, eligible).Ok? {
        PreviewStores(p, db, t, c, r, ids, now, eligible);
      }
    case DoApply(k, d, now, eligible) =>
      if Apply(p, db, k, d, now, eligible).Ok? && k !in db.authorities {
        if k == id { StaleIsRefused(p, db, id, d, now, eligible); }
        var plan := db.plans[k];
        ConsumeTables(p, db, plan, d, now, eligible);
        AppendGrows(db.versions, plan.body.targetId, VersionFor(p, plan, p.verifyFresh(d, plan, now).value));
        var t := db.plans[id].body.targetId;
        assert Rows(db.versions, t) <= Rows(Step(p, db, op).versions, t);
      }
    case DoRecover(_) =>
    case Crash =>
  }

  /** A stale plan is refused after every later run, whatever decision is presented. */
  lemma {:induction false} StaleForever(p: Ports, db: Database, ops: seq<Op>, id: string)
    requires Stale(db, id)
    ensures Stale(Run(p, db, ops), id)
    ensures forall d, now, eligible :: Apply(p, Run(p, db, ops), id, d, now, eligible).Err?
  {
    hide Step, Apply, Stale;
    if ops != [] {
      StaleForever(p, db, ops[..|ops| - 1], id);
      StaleAfterStep(p, Run(p, db, ops[..|ops| - 1]), ops[|ops| - 1], id);
    }
    forall d, now, eligible ensures Apply(p, Run(p, db, ops), id, d, now, eligible).Err? {
      StaleIsRefused(p, Run(p, db, ops), id, d, now, eligible);
    }
  }

  /** When one plan commits, every unconsumed rival made on the same predecessor becomes stale. */
  lemma CommitMakesRivalsStale(p: Ports, db: Database, id: string, d: Signed, now: int, eligible: bool, rival: string)
    requires id in db.plans && id !in db.authorities && Apply(p, db, id, d, now, eligible).Ok?
    requires rival != id && rival in db.plans && rival !in db.authorities
    requires db.plans[rival].body.targetId == db.plans[id].body.targetId
    requires db.plans[rival].body.expectedVersion == db.plans[id].body.expectedVersion
    ensures Stale(Apply(p, db, id, d, now, eligible).value, rival)
  {
    hide Lookup, Consume, PlanSealed, Append, VersionFor, AuditOf;
    var plan := db.plans[id];
    ConsumeTables(p, db, plan, d, now, eligible);
    AppendGrows(db.versions, plan.body.targetId, VersionFor(p, plan, p.verifyFresh(d, plan, now).value));
  }

  /** In every reachable ledger at most one plan per predecessor version was consumed. */
  lemma OneCommitPerPredecessor(p: Ports, ops: seq<Op>, j: string, k: string)
    requires Honest(p)
    requires var db := Run(p, EMPTY, ops);
             && j in db.authorities && k in db.authorities && j in db.plans && k in db.plans
             && db.plans[j].body.targetId == db.plans[k].body.targetId
             && db.plans[j].body.expectedVersion == db.plans[k].body.expectedVersion
    ensures j == k
  {
    hide Honest, TargetGood, Run;
    EmptyIsGood(p);
    RunKeeps(p, EMPTY, ops);
  }

  // ------------------------------------------------------------ replay

  lemma EntryOfRow(p: Ports, db: Database, s: Source, rows: seq<Version>, i: nat)
    requires i < |rows| && Verify(p, db, s, rows, |rows|).Some?
    ensures rows[i].planId in db.plans && PlanSealed(p.hashing, db.plans[rows[i].planId])
    ensures var b := db.plans[rows[i].planId].body;
            var item := Verify(p, db, s, rows, |rows|).value[i];
            b.planId == rows[i].planId && b.expectedVersion == i && item.correctionId == b.correctionId
            && item.planId == b.planId
  {
    hide Verify, Authorised, ReceiptVerified, AuditOf;
    VerifiedAt(p, db, s, rows, |rows|, i);
  }

  /** A consumed plan finds its own entry: the one at its predecessor version. */
  lemma ConsumedPlanFindsItsEntry(p: Ports, db: Database, id: string)
    requires Inv(p, db) && id in db.authorities
    ensures id in db.plans && PlanSealed(p.hashing, db.plans[id]) && db.plans[id].body.planId == id
    ensures var b := db.plans[id].body;
            && Lookup(p, db, b.targetId).Ok?
            && var h := Lookup(p, db, b.targetId).value.history;
            b.expectedVersion < |h| && h[b.expectedVersion].planId == id
            && Find(h, b.correctionId) == Some(h[b.expectedVersion])
  {
    hide Lookup, Verify, SourceVerified, PlanSealed, PlanFits, AnchorMatches, AuditInventory;
    var b := db.plans[id].body;
    var t := b.targetId;
    var rows := Rows(db.versions, t);
    assert TargetGood(p, db, t);
    InvariantIsAccepted(p, db, t);
    AcceptedLookup(p, db, t);
    var s := p.original(t).value;
    var h := Lookup(p, db, t).value.history;
    EntryOfRow(p, db, s, rows, b.expectedVersion);
    var i :| 0 <= i < |h| && h[i] == Find(h, b.correctionId).value;
    EntryOfRow(p, db, s, rows, i);
  }

  /** Later operations leave the entries of an accepted history as they were. */
  lemma HistoryOnlyExtends(p: Ports, db: Database, db': Database, t: string)
    requires Grows(db, db') && Lookup(p, db, t).Ok? && Lookup(p, db', t).Ok?
    ensures Lookup(p, db, t).value.history <= Lookup(p, db', t).value.history
  {
    hide Lookup, Verify, VersionVerified, SourceVerified;
    AcceptedLookup(p, db, t);
    AcceptedLookup(p, db', t);
    var rows, rows' := Rows(db.versions, t), Rows(db'.versions, t);
    assert rows <= rows';
    GrowthKeepsHistory(p, db, db', p.original(t).value, rows, rows', |rows|);
    if |rows| < |rows'| {
      VerifiedAt(p, db', p.original(t).value, rows', |rows'|, |rows|);
    }
  }

  /** Replaying a consumed plan after any further run, with the decision that consumed it,
      returns the entry it made and writes nothing; any other decision is refused. */
  lemma ReplayReturnsOriginalEntry(p: Ports, before: seq<Op>, later: seq<Op>, id: string, d: Signed, now: int,
                                   eligible: bool)
    requires Honest(p) && id in Run(p, EMPTY, before).authorities
    ensures var db := Run(p, EMPTY, before);
            var db' := Run(p, db, later);
            && id in db.plans && id in db'.plans && id in db'.authorities
            && var b := db.plans[id].body;
            && Lookup(p, db, b.targetId).Ok?
            && b.expectedVersion < |Lookup(p, db, b.targetId).value.history|
            && var entry := Lookup(p, db, b.targetId).value.history[b.expectedVersion];
            if d == db.authorities[id].decision
            then Apply(p, db', id, d, now, eligible) == Ok(db')
                 && Replay(p, db', db'.plans[id]).Ok?
                 && Replay(p, db', db'.plans[id]).value.applied == entry
                 && Replay(p, db', db'.plans[id]).value.recovered
            else Apply(p, db', id, d, now, eligible) == Err(Conflict)
  {
    hide Honest, Inv, Lookup, Run, PlanSealed, Consume, Find;
    var db := Run(p, EMPTY, before);
    EmptyIsGood(p);
    RunKeeps(p, EMPTY, before);
    RunKeeps(p, db, later);
    var db' := Run(p, db, later);
    ConsumedPlanFindsItsEntry(p, db, id);
    ConsumedPlanFindsItsEntry(p, db', id);
    HistoryOnlyExtends(p, db, db', db.plans[id].body.targetId);
  }

  /** What a preview puts into the plan it stores. */
  ghost predicate PlanMade(p: Ports, plan: Plan) {
    && Usable(p, plan.body.targetId) && Bound(p.binding(plan.body.actor), plan.body)
    && plan.body.beforeHash == p.hashing.fields(plan.body.before)
    && plan.body.afterHash == p.hashing.fields(plan.body.after)
    && plan.planHash == p.hashing.plan(plan.body)
    && PositiveEpoch(plan.body.createdAt) && plan.body.expiresAt == plan.body.createdAt + PLAN_SECONDS
  }

  lemma PreviewMakes(p: Ports, db: Database, t: string, c: Changes, r: string, ids: Fresh, now: int, eligible: bool)
    requires Preview(p, db, t, c, r, ids, now, eligible).Ok?
    ensures PlanMade(p, Preview(p, db, t, c, r, ids, now, eligible).value.1)
    ensures Preview(p, db, t, c, r, ids, now, eligible).value.1.body.createdAt == now
  {
    PreviewStores(p, db, t, c, r, ids, now, eligible);
    hide Verify, SourceVerified, AfterFields, CanonicalChanges, Lookup, TipOf, PlanInsertable, ReceiptFor, Usable,
      PlanFits;
    AcceptedLookup(p, db, t);
  }

  /** Every stored plan was made by a preview. */
  lemma {:induction false} PlansAreMade(p: Ports, ops: seq<Op>, id: string)
    requires id in Run(p, EMPTY, ops).plans
    ensures PlanMade(p, Run(p, EMPTY, ops).plans[id])
  {
    hide Lookup, Preview, Consume, PlanSealed, PlanFits, CanonicalChanges, AfterFields, Append, AuditOf, VersionFor;
    hide Usable, PlanMade, Replay;
    var front, last := ops[..|ops| - 1], ops[|ops| - 1];
    var db := Run(p, EMPTY, front);
    if id in db.plans { PlansAreMade(p, front, id); }
    match last
    case DoPreview(t, c, r, ids, now, eligible) =>
      if Preview(p, db, t, c, r, ids, now, eligible).Ok? {
        PreviewStores(p, db, t, c, r, ids, now, eligible);
        PreviewMakes(p, db, t, c, r, ids, now, eligible);
      }
    case DoApply(k, d, now, eligible) =>
      if Apply(p, db, k, d, now, eligible).Ok? && k !in db.authorities {
        ConsumeTables(p, db, db.plans[k], d, now, eligible);
      }
    case DoRecover(_) =>
    case Crash =>
  }

  /** So a stored plan can be read exactly when its expiry is still a calendar second. */
  lemma StoredPlanIsSealed(p: Ports, ops: seq<Op>, id: string)
    requires id in Run(p, EMPTY, ops).plans
    ensures var plan := Run(p, EMPTY, ops).plans[id];
            && Usable(p, plan.body.targetId) && Bound(p.binding(plan.body.actor), plan.body)
            && (PlanSealed(p.hashing, plan) <==> plan.body.createdAt + PLAN_SECONDS <= MAX_EPOCH)
  {
    hide Run, Usable, Bound;
    PlansAreMade(p, ops, id);
  }

  /** A plan previewed in the last ten minutes of the calendar is stored and never usable: it is
      refused by apply and by recovery after every later run. */
  lemma LatePlanIsRefused(p: Ports, db: Database, t: string, c: Changes, r: string, ids: Fresh, now: int,
                          eligible: bool, later: seq<Op>, d: Signed, at: int, again: bool)
    requires Preview(p, db, t, c, r, ids, now, eligible).Ok? && now + PLAN_SECONDS > MAX_EPOCH
    ensures var db' := Run(p, Preview(p, db, t, c, r, ids, now, eligible).value.0, later);
            && ids.planId in db'.plans
            && Apply(p, db', ids.planId, d, at, again).Err? && Recover(p, db', ids.planId).Err?
  {
    var (made, plan) := Preview(p, db, t, c, r, ids, now, eligible).value;
    PreviewMakes(p, db, t, c, r, ids, now, eligible);
    assert !PlanSealed(p.hashing, plan);
    hide Lookup, Preview, Consume, PlanSealed, PlanFits, Usable, Run, PlanMade, CanonicalChanges, AfterFields;
    PreviewStores(p, db, t, c, r, ids, now, eligible);
    PlanStays(p, made, later, ids.planId);
  }

  lemma {:induction false} PlanStays(p: Ports, db: Database, ops: seq<Op>, id: string)
    requires id in db.plans
    ensures id in Run(p, db, ops).plans && Run(p, db, ops).plans[id] == db.plans[id]
  {
    hide Lookup, Preview, Consume, PlanSealed, PlanFits, CanonicalChanges, AfterFields, Append, AuditOf, VersionFor,
      Usable, Replay;
    if ops != [] {
      var front, last := ops[..|ops| - 1], ops[|ops| - 1];
      PlanStays(p, db, front, id);
      var middle := Run(p, db, front);
      match last
      case DoPreview(t, c, r, ids, now, eligible) =>
        if Preview(p, middle, t, c, r, ids, now, eligible).Ok? {
          PreviewStores(p, middle, t, c, r, ids, now, eligible);
        }
      case DoApply(k, d, now, eligible) =>
        if Apply(p, middle, k, d, now, eligible).Ok? && k !in middle.authorities {
          ConsumeTables(p, middle, middle.plans[k], d, now, eligible);
        }
      case DoRecover(_) =>
      case Crash =>
    }
  }

  /** In every reachable ledger, recovery answers for every stored plan whose expiry is still a
      calendar second, and only for those; it reports an entry exactly when the plan was consumed,
      and then it is the entry the plan made. */
  lemma RecoveryReportsExactlyCommits(p: Ports, ops: seq<Op>, id: string)
    requires Honest(p) && id in Run(p, EMPTY, ops).plans
    ensures var db := Run(p, EMPTY, ops);
            && (Recover(p, db, id).Ok? <==> db.plans[id].body.createdAt + PLAN_SECONDS <= MAX_EPOCH)
            && (Recover(p, db, id).Ok? ==>
                  && (Recover(p, db, id).value.Some? <==> id in db.authorities)
                  && (id in db.authorities ==> Replay(p, db, db.plans[id]) == Ok(Recover(p, db, id).value.value)))
  {
    hide Honest, Inv, Lookup, Verify, Run, PlanSealed, Bound, Find, FindPlan, Usable, PlanFits;
    var db := Run(p, EMPTY, ops);
    EmptyIsGood(p);
    RunKeeps(p, EMPTY, ops);
    StoredPlanIsSealed(p, ops, id);
    EveryRunIsAccepted(p, ops, db.plans[id].body.targetId);
    PlanOf(p, db, id);
    var t := db.plans[id].body.targetId;
    AcceptedLookup(p, db, t);
    var h := Lookup(p, db, t).value.history;
    var rows := Rows(db.versions, t);
    if id in db.authorities {
      ConsumedPlanFindsItsEntry(p, db, id);
      assert h[db.plans[id].body.expectedVersion].planId == id;
    }
    if FindPlan(h, id).Some? {
      var i :| 0 <= i < |h| && h[i] == FindPlan(h, id).value;
      EntryOfRow(p, db, p.original(t).value, rows, i);
      RowIsConsumed(p, db, p.original(t).value, rows, i);
    }
  }

  lemma RowIsConsumed(p: Ports, db: Database, s: Source, rows: seq<Version>, i: nat)
    requires i < |rows| && Verify(p, db, s, rows, |rows|).Some?
    ensures rows[i].planId in db.authorities
  {
    hide Verify, Linked, ReceiptVerified, AuditOf, PlanSealed;
    VerifiedAt(p, db, s, rows, |rows|, i);
  }
}
