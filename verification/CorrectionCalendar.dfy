/** Plans at the end of the calendar: preview bounds the creation time, reading bounds the expiry. */
module CorrectionCalendar {
  import opened Prelude
  import opened CorrectionLedger
  import opened CorrectionRuns
  import opened CorrectionConcurrency

  /** Time does not decide a text preview: what succeeds at one second of the calendar succeeds at
      every other, in any ledger, exactly when no stored plan has the hash the plan would then have. */
  lemma PreviewAtAnyTime(p: Ports, db: Database, t: string, c: Changes, r: string, ids: Fresh, early: int, now: int)
    requires Preview(p, db, t, c, r, ids, early, true).Ok? && PositiveEpoch(now)
    requires Preview(p, db, t, c, r, ids, early, true).value.1.body.route == Text
    ensures var body := Preview(p, db, t, c, r, ids, early, true).value.1.body;
            var hash := p.hashing.plan(body.(createdAt := now, expiresAt := now + PLAN_SECONDS));
            Preview(p, db, t, c, r, ids, now, true).Ok? <==> forall k | k in db.plans :: db.plans[k].planHash != hash
  {
    hide Lookup, CanonicalChanges, AfterFields;
    var e := Lookup(p, db, t).value;
    var after := AfterFields(p, e.fields, CanonicalChanges(p, c).value).value;
    var reason := p.canonicalText(r, 2048).value;
    var plan, moved := PlanFor(p, e, after, reason, ids, None, early), PlanFor(p, e, after, reason, ids, None, now);
    assert moved.body == plan.body.(createdAt := now, expiresAt := now + PLAN_SECONDS);
    assert PlanInsertable(db, plan);
  }

  // ----------------------------------------------------------------- a case

  const SOURCE := Source("t", Text, "a", Fields("1", "EUR", "2026-01-01", None), "s", "o", "p", [], None)

  /** Services with one text transaction, fixed digests, and an approver who signs every plan. */
  const SERVICES := Ports(
    Hashing(_ => "s", _ => "p", _ => "f", _ => "h", _ => "c"),
    _ => "u",
    (amount, _) => Some(amount), currency => Some(currency), date => Some(date), (text, _) => Some(text),
    t => if t == "t" then Some(SOURCE) else None,
    actor => Binding(actor, "k", "r", "i"),
    Approve,
    (v: Verified, hash) => Seal(v.digest, hash),
    (_, seal: Seal, _, _, at) => Some(Proof(seal.material, at)),
    _ => None,
    (_, _, _, _, _) => false)

  function Approve(d: Signed, plan: Plan, now: int): Option<Verified> {
    var b := plan.body;
    Some(Verified(Envelope(b.planId, plan.planHash, b.authorityId, b.targetId, b.sourceHash, b.actor, b.instanceId,
                           now, now, d.envelope),
                  d.signature, now, b.correctionId))
  }

  const IDS := Fresh("plan", "correction", "authority", "fact", "snapshot")

  /** The preview of one edit of the amount. */
  function Edit(now: int): Op {
    DoPreview("t", Changes(Some("2"), None, None, None), "reason", IDS, now, true)
  }

  lemma ServicesAreHonest()
    ensures Honest(SERVICES)
  {
  }

  lemma SourceIsFound(db: Database)
    requires db.versions == map[] && db.audit == map[]
    requires "t" in db.anchors ==> db.anchors["t"] == Anchor(SOURCE, "r", "k")
    ensures Lookup(SERVICES, db, "t") == Ok(Effective("t", Text, 0, SOURCE.fields, [], SOURCE))
  {
  }

  lemma EditIsStored(now: int)
    requires PositiveEpoch(now)
    ensures var e := Edit(now);
            Preview(SERVICES, EMPTY, e.target, e.changes, e.reason, e.ids, now, true).Ok?
    ensures var db := Run(SERVICES, EMPTY, [Edit(now)]);
            && db.anchors == map["t" := Anchor(SOURCE, "r", "k")] && db.plans.Keys == {"plan"}
            && db.versions == map[] && db.audit == map[] && db.authorities == map[]
            && db.plans["plan"].body.createdAt == now
  {
    SourceIsFound(EMPTY);
    hide Lookup;
    assert [Edit(now)][..0] == [];
  }

  /** The edit is previewed at every second of the calendar; signed and applied at once it commits
      exactly when its expiry is a second of the calendar too. */
  lemma AppliedExactlyInTime(now: int, d: Signed)
    requires PositiveEpoch(now)
    ensures var db := Run(SERVICES, EMPTY, [Edit(now)]);
            && IDS.planId in db.plans && db.plans[IDS.planId].body.createdAt == now
            && (Apply(SERVICES, db, IDS.planId, d, now, true).Ok? <==> now + PLAN_SECONDS <= MAX_EPOCH)
  {
    EditIsStored(now);
    var db := Run(SERVICES, EMPTY, [Edit(now)]);
    hide Run;
    SourceIsFound(db);
    hide Lookup;
  }

  lemma {:induction false} RunsJoin(p: Ports, db: Database, a: seq<Op>, b: seq<Op>)
    ensures Run(p, db, a + b) == Run(p, Run(p, db, a), b)
    decreases |b|
  {
    hide Step;
    if b == [] {
      assert a + b == a;
    } else {
      RunsJoin(p, db, a, b[..|b| - 1]);
      assert (a + b)[..|a + b| - 1] == a + b[..|b| - 1];
    }
  }

  /** A case of the loss: the edit previewed in any of the last 600 seconds is stored, and however
      it is signed, no apply and no recovery accepts it after any further run. */
  lemma LatePlanIsLost(now: int, later: seq<Op>, d: Signed, at: int, again: bool)
    requires MAX_EPOCH - PLAN_SECONDS < now <= MAX_EPOCH
    ensures var db := Run(SERVICES, EMPTY, [Edit(now)] + later);
            && IDS.planId in db.plans
            && Apply(SERVICES, db, IDS.planId, d, at, again).Err? && Recover(SERVICES, db, IDS.planId).Err?
  {
    EditIsStored(now);
    var e := Edit(now);
    LatePlanIsRefused(SERVICES, EMPTY, e.target, e.changes, e.reason, IDS, now, true, later, d, at, again);
    assert [e][..0] == [];
    assert Run(SERVICES, EMPTY, [e]) == Preview(SERVICES, EMPTY, e.target, e.changes, e.reason, IDS, now, true).value.0;
    RunsJoin(SERVICES, EMPTY, [e], later);
  }
}
