/** The resume code of one worker, run to its end on the durable state it finds. */
module PostingStores {
  import opened Prelude
  import opened PostingResume
  import opened PostingRecovery

  class PostingStore {
    const svc: Services
    const d: Decision
    var attempt: Attempt
    var tables: Tables

    ghost function State(): World
      reads this
    {
      World(attempt, tables, map[])
    }

    ghost predicate Valid()
      reads this
    {
      Inv(svc, d, State())
    }

    constructor (svc: Services, d: Decision, confirmationId: string)
      ensures this.svc == svc && this.d == d && State() == Initial(confirmationId) && Valid()
    {
      this.svc, this.d := svc, d;
      attempt := Attempt(Accepted, 0, None, Some(confirmationId), None, [Accepted]);
      tables := NO_EVIDENCE;
      new;
      InitialGood(svc, d, confirmationId);
    }

    /** The guarded update: it moves the row only from the expected stage. */
    method MoveFrom(expected: Stage, stage: Stage, transactionId: Option<string>, evidenceId: Option<string>,
                    attention: Option<string>)
      modifies this`attempt
      ensures attempt == if old(attempt).stage == expected
                then Move(old(attempt), stage, transactionId, evidenceId, attention)
                         else old(attempt)
    {
      if attempt.stage != expected { return; }
      var version := attempt.rowVersion + 1;
      attempt := Attempt(stage, version, transactionId, evidenceId, attention, attempt.events + [stage]);
    }

    method CatchUpFinalized() returns (ok: bool)
      requires Valid()
      modifies this`attempt
      ensures Valid()
      ensures ok <==> CatchUp(d, old(State())).Ok?
      ensures attempt == (match CatchUp(d, old(State())) case Ok(a) => a case Err(_) => old(attempt))
    {
      hide Inv, EvidenceId, Prefix;
      FinishKeeps(svc, d, State());
      if tables.transaction.None? || attempt.stage == Finalized { return true; }
      if attempt.stage != BeforeFinal(d.path) { return false; }
      var id := tables.transaction.value.id;
      MoveFrom(BeforeFinal(d.path), Finalized, Some(id), Some(id), None);
      return true;
    }

    /** Left alone, a resume ends the attempt from whatever state crashes left behind: with the
        uninterrupted run's records and transaction when its checks pass, with attention when the
        payer lost its authority, the projection differs or the authorization conflicts. */
    method ResumePersonalReceipt(payerActive: bool, conflict: bool)
      requires Valid() && d.path == PersonalReceipt
      modifies this
      ensures Valid() && old(attempt.events) <= attempt.events && Terminal(attempt.stage)
      ensures Terminal(old(attempt.stage)) ==> attempt == old(attempt) && tables == old(tables)
      ensures attempt.stage == Finalized ==> tables == Complete(svc, d)
      ensures !Terminal(old(attempt.stage)) ==>
                (attempt.stage == Finalized <==> Succeeds(svc, d, payerActive, conflict))
    {
      hide Inv, Prefix, EvidenceId, Perform;
      while true
        invariant Valid() && old(attempt.events) <= attempt.events
        invariant Terminal(old(attempt.stage)) ==> attempt == old(attempt) && tables == old(tables)
        invariant !Terminal(old(attempt.stage)) ==> !Terminal(attempt.stage)
        decreases 5 - Rank(d.path, attempt.stage)
      {
        var stage := attempt.stage;
        FinalIsComplete(svc, d, State());
        if stage == Finalized || stage == NeedsAttention { return; }
        ServedGood(svc, d, State(), payerActive, conflict);
        match Perform(svc, d, tables, stage, payerActive, conflict) {
          case Attention(reason) =>
            MarkedGood(svc, d, State(), reason);
            MoveFrom(stage, NeedsAttention, None, None, Some(reason));
            return;
          case Done(stored, id) =>
            tables := stored;
            if stage == AuthorizationPersisted {
              var caught := CatchUpFinalized();
              FinalIsComplete(svc, d, State());
              return;
            }
            AdvancedGood(svc, d, State(), id);
            MoveFrom(stage, Next(stage), None, Some(id), None);
        }
      }
    }
  }

  /** The checks a lone resume makes on the way, stated on the uninterrupted run. */
  predicate Succeeds(svc: Services, d: Decision, payerActive: bool, conflict: bool) {
    && payerActive && !conflict
    && svc.projection(svc.calculate(svc.convert(d), svc.allocate(d, svc.convert(d)))) == d.projection
  }

  lemma FinishKeeps(svc: Services, d: Decision, world: World)
    requires Inv(svc, d, world) && world.workers == map[]
    ensures CatchUp(d, world).Ok? ==> Inv(svc, d, world.(attempt := CatchUp(d, world).value))
  {
    hide Prefix, Lawful, EvidenceId, Reached, AttemptGood, Complete;
    StageOf(d, world.attempt);
    if world.tables.transaction.Some? && world.attempt.stage == BeforeFinal(d.path) {
      var id := world.tables.transaction.value.id;
      CompleteId(svc, d, world.tables);
      MoveKeeps(d, world.attempt, Finalized, Some(id), Some(id), None);
    }
  }

  lemma FinalIsComplete(svc: Services, d: Decision, world: World)
    requires Inv(svc, d, world)
    ensures world.attempt.stage == Finalized ==> world.tables == Complete(svc, d)
  {
  }

  /** Serving the current stage never fails for want of evidence, keeps the invariant and, at the
      last stage, ends only in success or attention. */
  lemma ServedGood(svc: Services, d: Decision, world: World, payerActive: bool, conflict: bool)
    requires Inv(svc, d, world) && world.workers == map[] && d.path == PersonalReceipt && !Terminal(world.attempt.stage)
    ensures var o := Perform(svc, d, world.tables, world.attempt.stage, payerActive, conflict);
            && !o.Failed?
            && (o.Done? ==> Inv(svc, d, world.(tables := o.tables))
                            && Rank(d.path, world.attempt.stage) < Level(d, o.tables)
                            && o.evidenceId == EvidenceId(svc, d, Rank(d.path, world.attempt.stage) + 1)
                            && (world.attempt.stage == AuthorizationPersisted ==> o.tables.transaction.Some?))
            && (o.Attention? ==> !Succeeds(svc, d, payerActive, conflict))
            && (o.Done? && world.attempt.stage == AuthorizationPersisted ==> Succeeds(svc, d, payerActive, conflict))
  {
    hide Lawful, AttemptGood, Reached;
    StageOf(d, world.attempt);
    PerformKeeps(svc, d, world, world.attempt.stage, payerActive, conflict);
  }

  lemma MarkedGood(svc: Services, d: Decision, world: World, reason: string)
    requires Inv(svc, d, world) && world.workers == map[] && !Terminal(world.attempt.stage)
    ensures Inv(svc, d, world.(attempt := Move(world.attempt, NeedsAttention, None, None, Some(reason))))
  {
    hide Prefix, EvidenceId, AttemptGood, Reached;
    StageOf(d, world.attempt);
    MoveKeeps(d, world.attempt, NeedsAttention, None, None, Some(reason));
  }

  lemma AdvancedGood(svc: Services, d: Decision, world: World, id: string)
    requires Inv(svc, d, world) && world.workers == map[] && d.path == PersonalReceipt
    requires !Terminal(world.attempt.stage) && world.attempt.stage != AuthorizationPersisted
    requires Rank(d.path, world.attempt.stage) < Level(d, world.tables)
    requires id == EvidenceId(svc, d, Rank(d.path, world.attempt.stage) + 1)
    ensures Inv(svc, d, world.(attempt := Move(world.attempt, Next(world.attempt.stage), None, Some(id), None)))
  {
    hide Prefix, EvidenceId, AttemptGood, Reached;
    StageOf(d, world.attempt);
    MoveKeeps(d, world.attempt, Next(world.attempt.stage), None, Some(id), None);
  }
}
