/** The correction service as it runs: one connection whose tables it re-reads and appends to. */
module CorrectionServices {
  import opened Prelude
  import opened CorrectionLedger
  import opened CorrectionHistory
  import opened CorrectionRuns
  import opened CorrectionConcurrency

  class CorrectionService {
    const ports: Ports
    var db: Database

    constructor (ports: Ports)
      ensures this.ports == ports && db == EMPTY && Inv(ports, db)
    {
      this.ports := ports;
      db := EMPTY;
      new;
      EmptyIsGood(ports);
    }

    /** Walks the versions once, carrying the tip each row must build on. */
    method ReadHistory(source: Source, rows: seq<Version>) returns (history: Option<seq<Item>>)
      ensures history == Verify(ports, db, source, rows, |rows|)
    {
      hide VersionVerified;
      var items: seq<Item> := [];
      var before, predecessorId: Option<string>, predecessorHash := source.fields, None, source.projectionHash;
      var snapshot := if source.receipt.Some? then Some(source.receipt.value.snapshot) else None;
      var i := 0;
      while i < |rows|
        invariant 0 <= i <= |rows|
        invariant Verify(ports, db, source, rows, i) == Some(items)
        invariant TipOf(source, items) == Tip(before, predecessorId, predecessorHash, snapshot)
      {
        var row := rows[i];
        if !VersionVerified(ports, db, source, row, i + 1, Tip(before, predecessorId, predecessorHash, snapshot)) {
          FailureIsFinal(ports, db, source, rows, i + 1);
          return None;
        }
        PlanStored(ports, db, source, row, i + 1, TipOf(source, items));
        var item := ItemOf(db.plans[row.planId].body, row);
        items := items + [item];
        before, predecessorId, predecessorHash := item.after, Some(item.correctionId), item.resultHash;
        snapshot := item.snapshot;
        i := i + 1;
      }
      return Some(items);
    }

    method Read(target: string) returns (r: Result<Effective, Refusal>)
      ensures r == Lookup(ports, db, target)
    {
      hide Verify, AuditInventory, OneInstance, AnchorMatches, SourceVerified;
      if target == "" { return Err(Malformed); }
      var original := ports.original(target);
      if original.None? { return Err(Integrity); }
      var source := original.value;
      var binding := ports.binding(source.actor);
      var rows := Rows(db.versions, target);
      if !SourceVerified(ports, source, target) || binding.actor != source.actor || !AnchorMatches(db, source, binding)
         || !AuditInventory(rows, Rows(db.audit, target)) || !OneInstance(db, rows, binding)
      {
        return Err(Integrity);
      }
      var history := ReadHistory(source, rows);
      if history.None? { return Err(Integrity); }
      r := Ok(Effective(target, source.route, |history.value|, TipOf(source, history.value).fields, history.value,
        source));
    }

    method MakePreview(target: string, changes: Changes, reason: string, ids: Fresh, now: int, eligible: bool)
      returns (r: Result<Plan, Refusal>)
      modifies this
      ensures db == Step(ports, old(db), DoPreview(target, changes, reason, ids, now, eligible))
      ensures r.Ok? <==> Preview(ports, old(db), target, changes, reason, ids, now, eligible).Ok?
      ensures r.Ok? ==> ids.planId in db.plans && db.plans[ids.planId] == r.value
      ensures Honest(ports) && Inv(ports, old(db)) ==> Inv(ports, db) && Grows(old(db), db)
    {
      hide Lookup, AfterFields, CanonicalChanges, Inv, Grows, Honest, PlanInsertable, ReceiptFor, TipOf;
      StepKeepsIfHonest(ports, db, DoPreview(target, changes, reason, ids, now, eligible));
      var canonical := CanonicalChanges(ports, changes);
      var text := ports.canonicalText(reason, 2048);
      if canonical.None? || text.None? { return Err(Malformed); }
      var effective := Read(target);
      if effective.Err? { return Err(effective.error); }
      var after := AfterFields(ports, effective.value.fields, canonical.value);
      if after.None? || after.value == effective.value.fields || !eligible || !PositiveEpoch(now) {
        return Err(Malformed);
      }
      var receipt := ReceiptFor(ports, effective.value, after.value, ids, ports.utc(now));
      if receipt.None? { return Err(Malformed); }
      var plan := PlanFor(ports, effective.value, after.value, text.value, ids, receipt.value, now);
      if !PlanInsertable(db, plan) { return Err(Conflict); }
      db := db.(anchors := db.anchors[target := Anchor(effective.value.source, plan.body.realm, plan.body.keyId)]);
      db := db.(plans := db.plans[ids.planId := plan]);
      return Ok(plan);
    }

    /** A commit is durable before the reply is read back: a failed read-back reports an error
        over a committed ledger, which on a ledger of its own making cannot happen. */
    method MakeApply(planId: string, decision: Signed, now: int, eligible: bool) returns (r: Result<Applied, Refusal>)
      modifies this
      ensures db == Step(ports, old(db), DoApply(planId, decision, now, eligible))
      ensures Apply(ports, old(db), planId, decision, now, eligible).Err? ==> r.Err?
      ensures r.Ok? ==>
                r.value.recovered == (planId in old(db).authorities) && r.value.applied in r.value.current.history
                        && planId in db.plans && r.value.applied.correctionId == db.plans[planId].body.correctionId
      ensures Honest(ports) && Inv(ports, old(db)) ==>
                && Inv(ports, db) && Grows(old(db), db)
                && (Apply(ports, old(db), planId, decision, now, eligible).Ok? ==> r.Ok?)
    {
      hide Lookup, Inv, Grows, Honest, PlanSealed, Consume, Find;
      StepKeepsIfHonest(ports, db, DoApply(planId, decision, now, eligible));
      if planId !in db.plans { return Err(Malformed); }
      var plan := db.plans[planId];
      if plan.body.planId != planId || !PlanSealed(ports.hashing, plan) { return Err(Integrity); }
      var consumed := planId in db.authorities;
      if consumed {
        if db.authorities[planId].decision != decision { return Err(Conflict); }
      } else {
        var committed := Consume(ports, db, plan, decision, now, eligible);
        if committed.Err? { return Err(committed.error); }
        ConsumeTables(ports, db, plan, decision, now, eligible);
        db := committed.value;
      }
      FindsIfHonest(ports, db, planId);
      var current := Read(plan.body.targetId);
      if current.Err? { return Err(current.error); }
      var item := Find(current.value.history, plan.body.correctionId);
      if item.None? { return Err(Integrity); }
      return Ok(Applied(item.value, current.value, consumed));
    }

    method MakeRecover(planId: string) returns (r: Result<Option<Applied>, Refusal>)
      ensures r == Recover(ports, db, planId)
    {
      hide Lookup, PlanSealed, FindPlan, Bound;
      if planId !in db.plans { return Err(Malformed); }
      var plan := db.plans[planId];
      if plan.body.planId != planId || !PlanSealed(ports.hashing, plan) { return Err(Integrity); }
      var current := Read(plan.body.targetId);
      if current.Err? { return Err(current.error); }
      if !Bound(ports.binding(plan.body.actor), plan.body) { return Err(Conflict); }
      var item := FindPlan(current.value.history, planId);
      if item.None? { return Ok(None); }
      return Ok(Some(Applied(item.value, current.value, true)));
    }
  }

  /** One failed row fails every longer prefix. */
  lemma {:induction false} FailureIsFinal(p: Ports, db: Database, s: Source, rows: seq<Version>, n: nat)
    requires n <= |rows| && Verify(p, db, s, rows, n).None?
    ensures Verify(p, db, s, rows, |rows|).None?
    decreases |rows| - n
  {
    hide VersionVerified;
    if n < |rows| { FailureIsFinal(p, db, s, rows, n + 1); }
  }

  lemma PlanStored(p: Ports, db: Database, s: Source, row: Version, version: nat, tip: Tip)
    requires VersionVerified(p, db, s, row, version, tip)
    ensures row.planId in db.plans
  {
  }

  lemma StepKeepsIfHonest(p: Ports, db: Database, op: Op)
    ensures Honest(p) && Inv(p, db) ==> Inv(p, Step(p, db, op)) && Grows(db, Step(p, db, op))
  {
    hide Honest, Inv, Step, Grows;
    if Honest(p) && Inv(p, db) { StepKeeps(p, db, op); }
  }

  lemma FindsIfHonest(p: Ports, db: Database, id: string)
    requires id in db.authorities && id in db.plans
    ensures Inv(p, db) ==>
              && Lookup(p, db, db.plans[id].body.targetId).Ok?
              && Find(Lookup(p, db, db.plans[id].body.targetId).value.history, db.plans[id].body.correctionId).Some?
  {
    hide Inv, Lookup;
    if Inv(p, db) { ConsumedPlanFindsItsEntry(p, db, id); }
  }
}
