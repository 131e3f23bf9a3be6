/** Crash and resume refine the crash-free run. */
module PostingRecovery {
  import opened Prelude
  import opened PostingResume

  /** The evidence of an uninterrupted run after its first `k` services. */
  function Prefix(svc: Services, d: Decision, k: nat): Tables {
    if d.path == TextPath then
      Tables(None, None, None, None, if k >= 1 then Some(svc.post(d)) else None)
    else
      var c := svc.convert(d);
      var f := svc.allocate(d, c);
      var s := svc.calculate(c, f);
      var a := svc.authorize(d, s);
      Tables(if k >= 1 then Some(c) else None, if k >= 2 then Some(f) else None, if k >= 3 then Some(s) else None,
             if k >= 4 then Some(a) else None, if k >= 5 then Some(svc.finalize(a)) else None)
  }

  function Last(path: PostingPath): nat {
    if path == TextPath then 1 else 5
  }

  function Complete(svc: Services, d: Decision): Tables {
    Prefix(svc, d, Last(d.path))
  }

  /** How many services have left durable evidence. */
  function Level(d: Decision, t: Tables): nat {
    if t.transaction.Some? then Last(d.path)
    else if d.path == TextPath then 0
    else if t.authorization.Some? then 4
    else if t.snapshot.Some? then 3
    else if t.factSet.Some? then 2
    else if t.conversion.Some? then 1
    else 0
  }

  predicate OnPath(path: PostingPath, stage: Stage) {
    path == TextPath ==> stage == Accepted || stage == Finalized || stage == NeedsAttention
  }

  predicate Terminal(stage: Stage) {
    stage == Finalized || stage == NeedsAttention
  }

  function NextOn(path: PostingPath, stage: Stage): Stage {
    if path == TextPath && stage == Accepted then Finalized else Next(stage)
  }

  predicate Transition(path: PostingPath, from: Stage, to: Stage) {
    !Terminal(from) && (to == NeedsAttention || to == NextOn(path, from))
  }

  /** The transition triggers' rule, over the whole event log. */
  ghost predicate Lawful(path: PostingPath, events: seq<Stage>) {
    && |events| > 0 && events[0] == Accepted
    && (forall i | 0 <= i < |events| :: OnPath(path, events[i]))
    && (forall i | 0 < i < |events| :: Transition(path, events[i - 1], events[i]))
  }

  /** The last stage the attempt held before any attention. */
  ghost function Reached(a: Attempt): Stage {
    if a.stage != NeedsAttention || |a.events| < 2 then a.stage else a.events[|a.events| - 2]
  }

  ghost predicate AttemptGood(d: Decision, a: Attempt) {
    && Lawful(d.path, a.events) && a.stage == a.events[|a.events| - 1]
    && a.rowVersion == |a.events| - 1
    && (a.transactionId.Some? <==> a.stage == Finalized)
    && (a.attention.Some? <==> a.stage == NeedsAttention)
  }

  ghost predicate WorkerGood(svc: Services, d: Decision, world: World, pc: Pc) {
    var high := Rank(d.path, Reached(world.attempt));
    match pc
    case Looping(floor) =>
      d.path == PersonalReceipt && (world.attempt.stage == NeedsAttention || floor <= Rank(d.path, world.attempt.stage))
    case Seen(st) => OnPath(d.path, st) && !Terminal(st) && Rank(d.path, st) <= high
    case Performed(st, id) =>
      && d.path == PersonalReceipt && !Terminal(st) && st != AuthorizationPersisted && Rank(d.path, st) <= high
      && Rank(d.path, st) < Level(d, world.tables) && id == EvidenceId(svc, d, Rank(d.path, st) + 1)
    case Marking(st, _) => OnPath(d.path, st) && !Terminal(st) && Rank(d.path, st) <= high
    case CatchingUp => world.tables.transaction.Some?
  }

  ghost predicate Inv(svc: Services, d: Decision, world: World) {
    && AttemptGood(d, world.attempt)
    && world.tables == Prefix(svc, d, Level(d, world.tables))
    && Rank(d.path, Reached(world.attempt)) <= Level(d, world.tables) <= Rank(d.path, Reached(world.attempt)) + 1
    && (world.attempt.stage == Finalized ==> world.attempt.transactionId == world.attempt.evidenceId)
    && (Rank(d.path, world.attempt.stage) > 0 ==>
          world.attempt.evidenceId == Some(EvidenceId(svc, d, Rank(d.path, world.attempt.stage))))
    && forall w | w in world.workers :: WorkerGood(svc, d, world, world.workers[w])
  }

  /** The identity of the `k`-th record an uninterrupted run stores. */
  function EvidenceId(svc: Services, d: Decision, k: nat): string {
    var t := Complete(svc, d);
    var r := if k == 1 && d.path == PersonalReceipt then t.conversion else if k == 2 then t.factSet
             else if k == 3 then t.snapshot else if k == 4 then t.authorization else t.transaction;
    if r.Some? then r.value.id else ""
  }

  /** In a lawful log, event `i` has rank `i` unless it is attention: each transition moves one
      stage forward. */
  lemma {:induction false} LawfulRanks(path: PostingPath, events: seq<Stage>, i: nat)
    requires Lawful(path, events) && i < |events|
    ensures events[i] != NeedsAttention ==> Rank(path, events[i]) == i
    ensures events[i] == NeedsAttention ==> i > 0 && i == |events| - 1 && Rank(path, events[i - 1]) == i - 1
  {
    if i > 0 {
      LawfulRanks(path, events, i - 1);
      if i < |events| - 1 { assert Transition(path, events[i], events[i + 1]); }
    }
  }

  lemma MoveKeeps(d: Decision, a: Attempt, stage: Stage, tx: Option<string>, ev: Option<string>, att: Option<string>)
    requires AttemptGood(d, a) && !Terminal(a.stage)
    requires stage == NeedsAttention || stage == NextOn(d.path, a.stage)
    requires (tx.Some? <==> stage == Finalized) && (att.Some? <==> stage == NeedsAttention)
    ensures AttemptGood(d, Move(a, stage, tx, ev, att))
    ensures Reached(Move(a, stage, tx, ev, att)) == (if stage == NeedsAttention then a.stage else stage)
    ensures Reached(a) == a.stage
  {
    var b := Move(a, stage, tx, ev, att);
    assert b.events[|b.events| - 2] == a.stage;
  }

  /** A stage seen earlier still has its evidence; serving it extends the evidence by at most one
      record, and always with the record the uninterrupted run would store. */
  lemma PerformKeeps(svc: Services, d: Decision, world: World, stage: Stage, payerActive: bool, conflict: bool)
    requires Inv(svc, d, world)
    requires OnPath(d.path, stage) && !Terminal(stage) && Rank(d.path, stage) <= Rank(d.path, Reached(world.attempt))
    ensures var o := Perform(svc, d, world.tables, stage, payerActive, conflict);
            o.Done? ==>
              && o.tables == Prefix(svc, d, Level(d, o.tables))
              && Level(d, world.tables) <= Level(d, o.tables)
              && Rank(d.path, stage) < Level(d, o.tables) <= Rank(d.path, Reached(world.attempt)) + 1
              && o.evidenceId == EvidenceId(svc, d, Rank(d.path, stage) + 1)
              && (stage == BeforeFinal(d.path) ==> o.tables.transaction.Some?)
  {
  }

  lemma ServeKeeps(svc: Services, d: Decision, world: World, a: Action)
    requires Inv(svc, d, world) && a.Serve?
    ensures Inv(svc, d, Step(svc, d, world, a))
  {
    hide Prefix, Lawful, Perform, EvidenceId, Reached, AttemptGood;
    if a.w in world.workers && world.workers[a.w].Seen? {
      assert WorkerGood(svc, d, world, world.workers[a.w]);
      PerformKeeps(svc, d, world, world.workers[a.w].stage, a.payerActive, a.conflict);
    }
  }

  lemma MoveStepKeeps(svc: Services, d: Decision, world: World, a: Action)
    requires Inv(svc, d, world) && (a.Advance? || a.Mark? || a.Finish?)
    ensures Inv(svc, d, Step(svc, d, world, a))
  {
    hide Prefix, Lawful, EvidenceId, Reached, AttemptGood, Complete;
    if a.w in world.workers {
      var pc := world.workers[a.w];
      assert WorkerGood(svc, d, world, pc);
      StageOf(d, world.attempt);
      if a.Advance? && pc.Performed? && world.attempt.stage == pc.stage {
        MoveKeeps(d, world.attempt, Next(pc.stage), None, Some(pc.evidenceId), None);
      } else if a.Mark? && pc.Marking? && world.attempt.stage == pc.stage {
        MoveKeeps(d, world.attempt, NeedsAttention, None, None, Some(pc.reason));
      } else if a.Finish? && pc.CatchingUp? && world.attempt.stage == BeforeFinal(d.path) {
        var id := world.tables.transaction.value.id;
        CompleteId(svc, d, world.tables);
        MoveKeeps(d, world.attempt, Finalized, Some(id), Some(id), None);
      }
    }
  }

  lemma CompleteId(svc: Services, d: Decision, t: Tables)
    requires t == Prefix(svc, d, Level(d, t)) && t.transaction.Some?
    ensures t.transaction.value.id == EvidenceId(svc, d, Last(d.path))
  {
  }

  lemma StageOf(d: Decision, a: Attempt)
    requires AttemptGood(d, a)
    ensures OnPath(d.path, a.stage) && (a.stage != NeedsAttention ==> Reached(a) == a.stage)
    ensures Rank(d.path, Reached(a)) <= 5
  {
  }

  /** Every action keeps the invariant. */
  lemma StepKeeps(svc: Services, d: Decision, world: World, a: Action)
    requires Inv(svc, d, world)
    ensures Inv(svc, d, Step(svc, d, world, a))
  {
    if a.Serve? {
      ServeKeeps(svc, d, world, a);
    } else if a.Advance? || a.Mark? || a.Finish? {
      MoveStepKeeps(svc, d, world, a);
    } else {
      hide Prefix, Lawful, EvidenceId, Reached, AttemptGood;
      StageOf(d, world.attempt);
    }
  }

  lemma {:induction false} RunKeeps(svc: Services, d: Decision, world: World, actions: seq<Action>)
    requires Inv(svc, d, world)
    ensures Inv(svc, d, Run(svc, d, world, actions))
  {
    hide Inv, Step;
    if actions != [] {
      RunKeeps(svc, d, world, actions[..|actions| - 1]);
      StepKeeps(svc, d, Run(svc, d, world, actions[..|actions| - 1]), actions[|actions| - 1]);
    }
  }

  lemma InitialGood(svc: Services, d: Decision, confirmationId: string)
    ensures Inv(svc, d, Initial(confirmationId))
  {
  }

  /** For every schedule of workers and crashes: the row version counts the transitions; unless
      attention was raised it is the place of the stage on its path; the stage never runs ahead
      of its durable evidence and the evidence is at most one record ahead of the last stage
      reached; and all evidence is exactly what an uninterrupted run stores, in its order. */
  lemma EvidenceTracksStage(svc: Services, d: Decision, confirmationId: string, actions: seq<Action>)
    ensures var world := Run(svc, d, Initial(confirmationId), actions);
            && world.attempt.rowVersion == |world.attempt.events| - 1
            && Lawful(d.path, world.attempt.events)
            && (world.attempt.stage != NeedsAttention ==> world.attempt.rowVersion == Rank(d.path, world.attempt.stage))
            && Rank(d.path, Reached(world.attempt)) <= Level(d, world.tables)
            && Level(d, world.tables) <= Rank(d.path, Reached(world.attempt)) + 1
            && world.tables == Prefix(svc, d, Level(d, world.tables))
  {
    hide Lawful, Prefix, WorkerGood;
    InitialGood(svc, d, confirmationId);
    RunKeeps(svc, d, Initial(confirmationId), actions);
    var events := Run(svc, d, Initial(confirmationId), actions).attempt.events;
    LawfulRanks(d.path, events, |events| - 1);
  }

  /** Stages only move forward: a longer run only appends transitions, and a terminal stage is final. */
  lemma {:induction false} StagesMoveForward(svc: Services, d: Decision, world: World, actions: seq<Action>)
    requires Inv(svc, d, world)
    ensures world.attempt.events <= Run(svc, d, world, actions).attempt.events
    ensures Terminal(world.attempt.stage) ==> Run(svc, d, world, actions).attempt == world.attempt
  {
    hide Prefix, Perform, Level, Lawful;
    if actions != [] {
      StagesMoveForward(svc, d, world, actions[..|actions| - 1]);
      RunKeeps(svc, d, world, actions[..|actions| - 1]);
      var middle := Run(svc, d, world, actions[..|actions| - 1]);
      var w := actions[|actions| - 1].w;
      assert w in middle.workers ==> WorkerGood(svc, d, middle, middle.workers[w]);
    }
  }

  /** Whenever the attempt is finalized, the financial effect is that of an uninterrupted run:
      every record, and one transaction, once. */
  lemma CompletedEffectIsUninterrupted(svc: Services, d: Decision, confirmationId: string, actions: seq<Action>)
    requires Run(svc, d, Initial(confirmationId), actions).attempt.stage == Finalized
    ensures var world := Run(svc, d, Initial(confirmationId), actions);
            && world.tables == Complete(svc, d)
            && world.tables.transaction.Some?
            && world.attempt.transactionId == Some(world.tables.transaction.value.id)
            && world.attempt.rowVersion == Last(d.path)
  {
    hide WorkerGood, Lawful;
    InitialGood(svc, d, confirmationId);
    RunKeeps(svc, d, Initial(confirmationId), actions);
    var world := Run(svc, d, Initial(confirmationId), actions);
    LawfulRanks(d.path, world.attempt.events, |world.attempt.events| - 1);
  }

  /** Once a transaction exists it is the uninterrupted run's transaction and no later step changes it. */
  lemma {:induction false} TransactionIsWrittenOnce(svc: Services, d: Decision, world: World, actions: seq<Action>)
    requires Inv(svc, d, world) && world.tables.transaction.Some?
    ensures Run(svc, d, world, actions).tables.transaction == world.tables.transaction == Complete(svc, d).transaction
  {
    if actions != [] {
      TransactionIsWrittenOnce(svc, d, world, actions[..|actions| - 1]);
    }
  }

  // --------------------------------------------------------- termination

  /** A bound on the steps a worker can still take. */
  function Work(path: PostingPath, pc: Pc): nat {
    match pc
    case Looping(floor) => if floor > 5 then 0 else 3 * (6 - floor)
    case Seen(st) => 3 * (5 - Rank(path, st)) + 2
    case Performed(st, _) => 3 * (5 - Rank(path, st)) + 1
    case Marking(_, _) => 1
    case CatchingUp => 1
  }

  /** The action the resume code takes next from a position. */
  function NextAction(w: int, pc: Pc, payerActive: bool, conflict: bool): Action {
    match pc
    case Looping(_) => Read(w)
    case Seen(_) => Serve(w, payerActive, conflict)
    case Performed(_, _) => Advance(w)
    case Marking(_, _) => Mark(w)
    case CatchingUp => Finish(w)
  }

  /** Whatever the other workers did in between, each own step of a worker brings it nearer its
      end, so one resume call takes at most 18 steps. */
  lemma ResumeTerminates(svc: Services, d: Decision, world: World, w: int, payerActive: bool, conflict: bool)
    requires Inv(svc, d, world) && w in world.workers
    ensures Work(d.path, world.workers[w]) <= 18
    ensures var world' := Step(svc, d, world, NextAction(w, world.workers[w], payerActive, conflict));
            w in world'.workers ==> Work(d.path, world'.workers[w]) < Work(d.path, world.workers[w])
  {
    hide Prefix, AttemptGood, Reached, EvidenceId, Perform;
    assert WorkerGood(svc, d, world, world.workers[w]);
    StageOf(d, world.attempt);
  }

  /** Other workers' steps do not move a worker. */
  lemma OthersDoNotInterfere(svc: Services, d: Decision, world: World, w: int, other: Action)
    requires w in world.workers && other.w != w
    ensures w in Step(svc, d, world, other).workers && Step(svc, d, world, other).workers[w] == world.workers[w]
  {
    hide Perform;
  }

  // ----------------------------------------------------------- attention

  /** Catch-up refuses a finalized result exactly when attention overtook the finalization. */
  lemma CatchUpRefusedExactlyAfterAttention(svc: Services, d: Decision, world: World)
    requires Inv(svc, d, world)
    ensures CatchUp(d, world).Err? <==> world.tables.transaction.Some? && world.attempt.stage == NeedsAttention
  {
    hide Lawful, Prefix, WorkerGood;
    LawfulRanks(d.path, world.attempt.events, |world.attempt.events| - 1);
    StageOf(d, world.attempt);
  }

  /** Two workers overtake each other: from a world one step from the end, the second can leave
      the posted transaction of the first under an attempt that needs attention. */
  lemma OvertakenFrom(svc: Services, d: Decision, world: World)
    requires Inv(svc, d, world) && d.path == PersonalReceipt && world.workers == map[]
    requires world.attempt.stage == AuthorizationPersisted && world.tables.transaction.None?
    requires Agrees(svc, d)
    ensures var world' := Run(svc, d, world, OVERTAKING);
            && world'.tables == Complete(svc, d) && world'.attempt.stage == NeedsAttention && CatchUp(d, world').Err?
            && world'.workers == map[1 := CatchingUp]
  {
    hide Run, Lawful;
    var a := OVERTAKING;
    var w1 := Step(svc, d, world, a[0]);
    var w2 := Step(svc, d, w1, a[1]);
    var w3 := Step(svc, d, w2, a[2]);
    var w4 := Step(svc, d, w3, a[3]);
    assert w4.workers == map[1 := Seen(AuthorizationPersisted), 2 := Seen(AuthorizationPersisted)];
    var w5 := Step(svc, d, w4, a[4]);
    var w6 := Step(svc, d, w5, a[5]);
    assert w6.tables == Complete(svc, d);
    var w7 := Step(svc, d, w6, a[6]);
    assert w7.workers == map[1 := CatchingUp];
    RunsThrough(svc, d, world, a, [world, w1, w2, w3, w4, w5, w6, w7], 7);
    assert a[..7] == a;
  }

  lemma {:induction false} RunsThrough(svc: Services, d: Decision, world: World, a: seq<Action>, worlds: seq<World>,
                                       n: nat)
    requires n <= |a| && |worlds| == |a| + 1 && worlds[0] == world
    requires forall i | 0 <= i < |a| :: worlds[i + 1] == Step(svc, d, worlds[i], a[i])
    ensures Run(svc, d, world, a[..n]) == worlds[n]
  {
    hide Step;
    if n > 0 {
      RunsThrough(svc, d, world, a, worlds, n - 1);
      assert a[..n][..n - 1] == a[..n - 1];
    }
  }

  const OVERTAKING: seq<Action> :=
    [Start(1), Read(1), Start(2), Read(2), Serve(1, true, false), Serve(2, false, false), Mark(2)]

  /** The stage after `k` rounds of a lone worker. */
  function StageAt(k: nat): Stage {
    if k == 0 then Accepted else Next(StageAt(k - 1))
  }

  /** A lone worker that has finished `k` rounds of its loop. */
  ghost predicate AtRound(svc: Services, d: Decision, world: World, k: nat) {
    world.attempt.stage == StageAt(k) && world.tables == Prefix(svc, d, k) && world.workers == map[0 := Looping(k)]
  }

  /** What the receipt calculator derives agrees with what was confirmed. */
  predicate Agrees(svc: Services, d: Decision) {
    svc.projection(svc.calculate(svc.convert(d), svc.allocate(d, svc.convert(d)))) == d.projection
  }

  lemma Round(svc: Services, d: Decision, world: World, k: nat)
    requires d.path == PersonalReceipt && Agrees(svc, d) && k < 4 && AtRound(svc, d, world, k)
    ensures AtRound(svc, d,
              Step(svc, d, Step(svc, d, Step(svc, d, world, Read(0)), Serve(0, true, false)), Advance(0)), k + 1)
  {
    assert StageAt(k) == (if k == 0 then Accepted else if k == 1 then ConversionPersisted
                          else if k == 2 then FactSetPersisted else SnapshotPersisted);
    var read := Step(svc, d, world, Read(0));
    assert read == world.(workers := map[0 := Seen(StageAt(k))]);
    var served := Step(svc, d, read, Serve(0, true, false));
    assert served.tables == Prefix(svc, d, k + 1) && served.attempt == world.attempt;
    assert exists id :: served.workers == map[0 := Performed(StageAt(k), id)];
  }

  function Rounds(k: nat): seq<Action> {
    if k == 0 then [Start(0)] else Rounds(k - 1) + [Read(0), Serve(0, true, false), Advance(0)]
  }

  lemma {:induction false} RoundsReach(svc: Services, d: Decision, confirmationId: string, k: nat)
    requires d.path == PersonalReceipt && Agrees(svc, d) && k <= 4
    ensures AtRound(svc, d, Run(svc, d, Initial(confirmationId), Rounds(k)), k)
  {
    hide Step, Agrees;
    var start := Initial(confirmationId);
    if k == 0 {
      assert [Start(0)][..0] == [];
      assert Run(svc, d, start, [Start(0)]) == Step(svc, d, start, Start(0));
      Begins(svc, d, confirmationId);
    } else {
      RoundsReach(svc, d, confirmationId, k - 1);
      var before := Rounds(k - 1);
      RunsJoin(svc, d, start, before, [Read(0), Serve(0, true, false), Advance(0)]);
      ThreeSteps(svc, d, Run(svc, d, start, before), Read(0), Serve(0, true, false), Advance(0));
      Round(svc, d, Run(svc, d, start, before), k - 1);
    }
  }

  lemma ThreeSteps(svc: Services, d: Decision, world: World, a: Action, b: Action, c: Action)
    ensures Run(svc, d, world, [a, b, c]) == Step(svc, d, Step(svc, d, Step(svc, d, world, a), b), c)
  {
    hide Step;
    assert [a, b, c][..2] == [a, b] && [a, b][..1] == [a] && [a][..0] == [];
    assert Run(svc, d, world, [a]) == Step(svc, d, world, a);
    assert Run(svc, d, world, [a, b]) == Step(svc, d, Run(svc, d, world, [a]), b);
  }

  lemma Begins(svc: Services, d: Decision, confirmationId: string)
    requires d.path == PersonalReceipt
    ensures AtRound(svc, d, Step(svc, d, Initial(confirmationId), Start(0)), 0)
  {
  }

  lemma {:induction false} RunsJoin(svc: Services, d: Decision, world: World, a: seq<Action>, b: seq<Action>)
    ensures Run(svc, d, world, a + b) == Run(svc, d, Run(svc, d, world, a), b)
    decreases |b|
  {
    hide Step;
    if b == [] {
      assert a + b == a;
    } else {
      RunsJoin(svc, d, world, a, b[..|b| - 1]);
      assert (a + b)[..|a + b| - 1] == a + b[..|b| - 1];
    }
  }

  /** A run from the accepted decision leaves a posted transaction under an attempt that needs
      attention, and catch-up then refuses it: one worker stops before the last service, and of the
      next two one posts and the other then finds the payer inactive. */
  lemma AttentionCanOvertakeFinalization(svc: Services, d: Decision, confirmationId: string)
    requires d.path == PersonalReceipt && Agrees(svc, d)
    ensures var world := Run(svc, d, Initial(confirmationId), Rounds(4) + [Crash(0)] + OVERTAKING);
            && world.tables == Complete(svc, d) && world.attempt.stage == NeedsAttention && CatchUp(d, world).Err?
            && world.workers == map[1 := CatchingUp]
  {
    var start := Initial(confirmationId);
    RoundsReach(svc, d, confirmationId, 4);
    assert StageAt(4) == AuthorizationPersisted by { assert StageAt(2) == FactSetPersisted; }
    var stopped := Run(svc, d, start, Rounds(4) + [Crash(0)]);
    assert (Rounds(4) + [Crash(0)])[..|Rounds(4)|] == Rounds(4);
    var reached := Run(svc, d, start, Rounds(4));
    assert stopped == Leave(reached, 0);
    hide Run, Step, Rounds;
    InitialGood(svc, d, confirmationId);
    RunKeeps(svc, d, start, Rounds(4) + [Crash(0)]);
    assert stopped.workers == map[];
    OvertakenFrom(svc, d, stopped);
    RunsJoin(svc, d, start, Rounds(4) + [Crash(0)], OVERTAKING);
  }
}
