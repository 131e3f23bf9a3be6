/** Staged posting of an accepted decision: any number of workers resume it, each may crash
    between any two transactions, and each stage is advanced by compare-and-swap. */
module PostingResume {
  import opened Prelude

  datatype PostingPath = TextPath | PersonalReceipt

  datatype Stage =
    | Accepted | ConversionPersisted | FactSetPersisted | SnapshotPersisted | AuthorizationPersisted
    | Finalized | NeedsAttention

  /** A durable record of a financial service: its identity and its content. */
  datatype Record = Record(id: string, content: string)

  datatype Decision = Decision(id: string, path: PostingPath, projection: string)

  /** The guarded financial services.  Each derives its command identity from the attempt, so
      a repeated command returns the record the first one stored. */
  datatype Services = Services(
    convert: Decision -> Record,
    allocate: (Decision, Record) -> Record,
    calculate: (Record, Record) -> Record,
    authorize: (Decision, Record) -> Record,
    finalize: Record -> Record,
    post: Decision -> Record,
    projection: Record -> string)

  /** The durable evidence of one decision, a table per service. */
  datatype Tables = Tables(
    conversion: Option<Record>, factSet: Option<Record>, snapshot: Option<Record>,
    authorization: Option<Record>, transaction: Option<Record>)

  const NO_EVIDENCE := Tables(None, None, None, None, None)

  /** The attempt row and the transition events its triggers append. */
  datatype Attempt = Attempt(
    stage: Stage, rowVersion: nat, transactionId: Option<string>, evidenceId: Option<string>,
    attention: Option<string>, events: seq<Stage>)

  /** Where a worker stands between two of its transactions; `floor` is a bound it learnt. */
  datatype Pc =
    | Looping(floor: nat)
    | Seen(stage: Stage)
    | Performed(stage: Stage, evidenceId: string)
    | Marking(stage: Stage, reason: string)
    | CatchingUp

  datatype World = World(attempt: Attempt, tables: Tables, workers: map<int, Pc>)

  /** The decision commits together with its attempt at stage accepted. */
  function Initial(confirmationId: string): World {
    World(Attempt(Accepted, 0, None, Some(confirmationId), None, [Accepted]), NO_EVIDENCE, map[])
  }

  function Next(stage: Stage): Stage {
    match stage
    case Accepted => ConversionPersisted
    case ConversionPersisted => FactSetPersisted
    case FactSetPersisted => SnapshotPersisted
    case SnapshotPersisted => AuthorizationPersisted
    case AuthorizationPersisted => Finalized
    case Finalized => Finalized
    case NeedsAttention => NeedsAttention
  }

  /** How far a stage is along its path; attention has no place of its own. */
  function Rank(path: PostingPath, stage: Stage): nat {
    match stage
    case Accepted => 0
    case ConversionPersisted => 1
    case FactSetPersisted => 2
    case SnapshotPersisted => 3
    case AuthorizationPersisted => 4
    case Finalized => if path == TextPath then 1 else 5
    case NeedsAttention => 0
  }

  // ------------------------------------------------------- one worker pass

  datatype Outcome = Done(tables: Tables, evidenceId: string) | Attention(reason: string) | Failed

  /** The value stored first wins. */
  function Once(stored: Option<Record>, made: Record): Record {
    if stored.Some? then stored.value else made
  }

  /** The service transactions a worker runs for the stage it read. */
  function Perform(svc: Services, d: Decision, t: Tables, stage: Stage, payerActive: bool, conflict: bool): Outcome {
    if d.path == TextPath then
      if stage != Accepted then Failed
      else
        var r := Once(t.transaction, svc.post(d));
        Done(t.(transaction := Some(r)), r.id)
    else if !payerActive then Attention("personal_participant_authority_changed")
    else if stage == Accepted then
      var r := Once(t.conversion, svc.convert(d));
      Done(t.(conversion := Some(r)), r.id)
    else if t.conversion.None? then Failed
    else if stage == ConversionPersisted then
      var r := Once(t.factSet, svc.allocate(d, t.conversion.value));
      Done(t.(factSet := Some(r)), r.id)
    else if t.factSet.None? then Failed
    else
      var prepared := Once(t.snapshot, svc.calculate(t.conversion.value, t.factSet.value));
      var t' := t.(snapshot := Some(prepared));
      if stage == FactSetPersisted then Done(t', prepared.id)
      else if svc.projection(prepared) != d.projection then Attention("authoritative_projection_mismatch")
      else if conflict then Attention("conditional_authorization_conflict")
      else
        var authorized := Once(t.authorization, svc.authorize(d, prepared));
        var t'' := t'.(authorization := Some(authorized));
        if stage == SnapshotPersisted then Done(t'', authorized.id)
        else if stage == AuthorizationPersisted then
          var r := Once(t.transaction, svc.finalize(authorized));
          Done(t''.(transaction := Some(r)), r.id)
        else Failed
  }

  function Move(a: Attempt, stage: Stage, transactionId: Option<string>, evidenceId: Option<string>,
                attention: Option<string>): Attempt {
    Attempt(stage, a.rowVersion + 1, transactionId, evidenceId, attention, a.events + [stage])
  }

  /** The stage from which a verified financial result may be caught up. */
  function BeforeFinal(path: PostingPath): Stage {
    if path == TextPath then Accepted else AuthorizationPersisted
  }

  /** Catch-up under one write lock: nothing to do, one transition, or a refusal. */
  function CatchUp(d: Decision, w: World): Result<Attempt, string> {
    if w.tables.transaction.None? || w.attempt.stage == Finalized then Ok(w.attempt)
    else if w.attempt.stage != BeforeFinal(d.path) then Err("finalized result has an invalid coordination stage")
    else
      var id := w.tables.transaction.value.id;
      Ok(Move(w.attempt, Finalized, Some(id), Some(id), None))
  }

  datatype Action =
    | Start(w: int)
    | Read(w: int)
    | Serve(w: int, payerActive: bool, conflict: bool)
    | Advance(w: int)
    | Mark(w: int)
    | Finish(w: int)
    | Crash(w: int)

  function Leave(world: World, w: int): World {
    world.(workers := world.workers - {w})
  }

  function At(world: World, w: int, pc: Pc): World {
    world.(workers := world.workers[w := pc])
  }

  /** One atomic step; an action that does not fit the worker's position changes nothing. */
  function Step(svc: Services, d: Decision, world: World, a: Action): World {
    var w := a.w;
    if a.Start? then
      if w in world.workers then world
      else if world.tables.transaction.Some? then At(world, w, CatchingUp)
      else if world.attempt.stage == NeedsAttention then world
      else if d.path == TextPath then (if world.attempt.stage == Accepted then At(world, w, Seen(Accepted)) else world)
      else At(world, w, Looping(0))
    else if w !in world.workers then world
    else
      var pc := world.workers[w];
      match a
      case Read(_) =>
        if !pc.Looping? then world
        else if world.attempt.stage == Finalized || world.attempt.stage == NeedsAttention then Leave(world, w)
        else At(world, w, Seen(world.attempt.stage))
      case Serve(_, payerActive, conflict) =>
        if !pc.Seen? then world
        else
          (match Perform(svc, d, world.tables, pc.stage, payerActive, conflict)
           case Done(tables, id) =>
             At(world.(tables := tables), w, if pc.stage == BeforeFinal(d.path) then CatchingUp
               else Performed(pc.stage, id))
           case Attention(reason) => At(world, w, Marking(pc.stage, reason))
           case Failed => Leave(world, w))
      case Advance(_) =>
        if !pc.Performed? then world
        else
          var next := At(world, w, Looping(Rank(d.path, pc.stage) + 1));
          if world.attempt.stage == pc.stage
          then next.(attempt := Move(world.attempt, Next(pc.stage), None, Some(pc.evidenceId), None)) else next
      case Mark(_) =>
        if !pc.Marking? then world
        else if world.attempt.stage == pc.stage
        then Leave(world.(attempt := Move(world.attempt, NeedsAttention, None, None, Some(pc.reason))), w)
        else Leave(world, w)
      case Finish(_) =>
        if !pc.CatchingUp? then world
        else (match CatchUp(d, world) case Ok(x) => Leave(world.(attempt := x), w) case Err(_) => Leave(world, w))
      case Crash(_) => Leave(world, w)
  }

  function Run(svc: Services, d: Decision, world: World, actions: seq<Action>): World {
    if actions == [] then world else Step(svc, d, Run(svc, d, world, actions[..|actions| - 1]), actions[|actions| - 1])
  }
}
