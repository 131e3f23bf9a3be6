/** What every run of the invocation journal keeps. */
module AiRuns {
  import opened Prelude
  import opened AiJournal

  // --------------------------------------------------------------- effects

  /** The possible effects of a transaction on the journal. */
  datatype Effect =
    | Nothing
    | AddAttempt(id: string, attempt: Attempt)
    | AddClaim(id: string, at: int)
    | Send(id: string)
    | Drop(id: string, late: bool)
    | AddEvents(id: string, list: seq<Event>)
    | AddResult(id: string, row: ResultRow)
    | AddPublication(id: string, publication: Publication)
    | AddQuestion(id: string, question: Question)
    | MoveProposals(change: Change)

  function Effected(j: Journal, e: Effect): Journal {
    match e
    case Nothing => j
    case AddAttempt(id, a) => j.(attempts := j.attempts[id := a])
    case AddClaim(id, at) => j.(claims := j.claims[id := at], holding := j.holding + {id})
    case Send(id) => j.(holding := j.holding - {id}, sent := j.sent + [id])
    case Drop(id, late) =>
      var spent := j.(holding := j.holding - {id}); if late then AddEvent(spent, id, Uncertain) else spent
    case AddEvents(id, list) => j.(events := j.events[id := list])
    case AddResult(id, row) =>
      j.(results := j.results[id := Rows(j.results, id) + [row]], records := j.records[row.record := id])
    case AddPublication(id, p) =>
      if id !in j.attempts || j.attempts[id].parent !in j.proposals then j
      else
        var a := j.attempts[id];
        j.(proposals := j.proposals[a.parent := j.proposals[a.parent].(pending := false)]
                                   [p.child := Proposal(a.intake, true, 0, p.hash)],
           targets := j.targets[a.intake := p.child], publications := j.publications[id := p])
    case AddQuestion(id, q) => j.(questions := j.questions[id := Rows(j.questions, id) + [q]])
    case MoveProposals(c) => var r := Apply(j, c); if r.Some? then r.value else j
  }

  /** What the transaction checked before it had the effect. */
  ghost predicate Guarded(j: Journal, e: Effect) {
    match e
    case AddAttempt(id, a) => AttemptGuard(j, id, a)
    case AddClaim(id, at) => id in j.attempts && id !in j.claims
    case Send(id) => id in j.holding
    case AddEvents(id, list) => Rows(j.events, id) <= list && list != []
    case AddResult(id, row) => id in j.attempts
    case AddPublication(id, p) => PublicationGuard(j, id, p)
    case AddQuestion(id, q) => QuestionGuard(j, id, q)
    case _ => true
  }

  ghost predicate AttemptGuard(j: Journal, id: string, a: Attempt) {
    && id !in j.attempts
    && Target(j, a.intake) == Some(a.parent)
    && WalkGuard(j, a)
    && (a.kind.FollowUp? ==> FollowUpGuard(j, a.kind.of, a.kind.generation, a.parent))
  }

  /** The unpublished attempts on the parent are all ancestors of the new one. */
  ghost predicate WalkGuard(j: Journal, a: Attempt) {
    var walk := Permitted(j.attempts, if a.kind.FollowUp? then Some(a.kind.of) else None, {});
    walk.Some? && forall k | k in j.attempts && j.attempts[k].parent == a.parent && k !in j.publications ::
      k in walk.value
  }

  ghost predicate FollowUpGuard(j: Journal, of: string, generation: nat, parent: nat) {
    && of in j.attempts && j.attempts[of].parent == parent
    && generation + 1 == |Rows(j.questions, of)| <= DEPTH_LIMIT
    && Rows(j.events, of) == []
    && !HasSuccessor(j.attempts, of)
  }

  ghost predicate HasSuccessor(attempts: map<string, Attempt>, id: string) {
    exists s :: s in attempts && attempts[s].kind.FollowUp? && attempts[s].kind.of == id
  }

  ghost predicate PublicationGuard(j: Journal, id: string, p: Publication) {
    && id in j.attempts && AttemptVerifies(j, id, []) && id !in j.publications && Rows(j.events, id) == []
    && |Rows(j.results, id)| == 1 && Rows(j.results, id)[0].verdict == Valid
    && Target(j, j.attempts[id].intake) == Some(j.attempts[id].parent)
    && p.child !in j.proposals
  }

  ghost predicate QuestionGuard(j: Journal, id: string, q: Question) {
    var qs := Rows(j.questions, id);
    && id in j.attempts && id !in j.publications
    && |Rows(j.results, id)| == 1 && Rows(j.results, id)[0].verdict == NeedsClarification
    && q.record == Rows(j.results, id)[0].record && q.expires == q.created + QUESTION_SECONDS
    && |qs| <= DEPTH_LIMIT
    && (forall g | 0 <= g < |qs| :: !Consumed(j.attempts, id, g))
    && (qs != [] ==> qs[|qs| - 1].expires <= q.created)
  }

  /** The effect, table by table. */
  lemma EffectTables(j: Journal, e: Effect)
    ensures var j' := Effected(j, e);
            && j'.attempts == (if e.AddAttempt? then j.attempts[e.id := e.attempt] else j.attempts)
            && j'.claims == (if e.AddClaim? then j.claims[e.id := e.at] else j.claims)
            && j'.holding
               == (if e.AddClaim? then j.holding + {e.id} else if e.Send? || e.Drop? then j.holding - {e.id}
                 else j.holding)
            && j'.sent == (if e.Send? then j.sent + [e.id] else j.sent)
            && j'.results == (if e.AddResult? then j.results[e.id := Rows(j.results, e.id) + [e.row]] else j.results)
            && j'.questions
               == (if e.AddQuestion? then j.questions[e.id := Rows(j.questions, e.id) + [e.question]] else j.questions)
            && (j'.publications == (if e.AddPublication? && e.id in j.attempts && j.attempts[e.id].parent in j.proposals
                                    then j.publications[e.id := e.publication] else j.publications))
            && (!e.AddEvents? && !e.Drop? ==> j'.events == j.events)
            && (e.AddEvents? ==> j'.events == j.events[e.id := e.list])
            && (!e.AddPublication? && !e.MoveProposals? ==> j'.proposals == j.proposals && j'.targets == j.targets)
  {
    hide Apply, AddEvent;
    match e
    case MoveProposals(c) => if Apply(j, c).Some? { ChangeTables(j, c); }
    case Drop(id, late) => DropTables(j, id, late);
    case AddPublication(id, p) => PublicationTables(j, id, p);
    case _ =>
  }

  lemma DropTables(j: Journal, id: string, late: bool)
    ensures var j' := Effected(j, Drop(id, late));
            && j'.attempts == j.attempts && j'.claims == j.claims && j'.holding == j.holding - {id} && j'.sent == j.sent
            && j'.results == j.results && j'.questions == j.questions && j'.publications == j.publications
            && j'.proposals == j.proposals && j'.targets == j.targets
  {
    hide Apply, AddEvent, KeepsRows;
    EventTables(j.(holding := j.holding - {id}), id);
  }

  lemma PublicationTables(j: Journal, id: string, p: Publication)
    ensures var j' := Effected(j, AddPublication(id, p));
            && j'.attempts == j.attempts && j'.claims == j.claims && j'.holding == j.holding && j'.sent == j.sent
            && j'.results == j.results && j'.questions == j.questions && j'.events == j.events
            && j'.publications == if id in j.attempts && j.attempts[id].parent in j.proposals
                 then j.publications[id := p] else j.publications
  {
    hide Apply, AddEvent;
  }

  lemma ChangeTables(j: Journal, c: Change)
    requires Apply(j, c).Some?
    ensures var j' := Apply(j, c).value;
            && j'.attempts == j.attempts && j'.claims == j.claims && j'.holding == j.holding && j'.sent == j.sent
            && j'.results == j.results && j'.questions == j.questions && j'.publications == j.publications
            && j'.events == j.events
  {
  }

  lemma EventTables(j: Journal, id: string)
    ensures var j' := AddEvent(j, id, Uncertain);
            && j'.attempts == j.attempts && j'.claims == j.claims && j'.holding == j.holding && j'.sent == j.sent
            && j'.results == j.results && j'.questions == j.questions && j'.publications == j.publications
            && j'.proposals == j.proposals && j'.targets == j.targets && KeepsRows(j.events, j'.events)
  {
    hide KeepsRows;
    AppendKeepsRows(j.events, id, Rows(j.events, id) + [Uncertain]);
    SameKeepsRows(j.events);
  }

  lemma SameKeepsRows<T>(table: map<string, seq<T>>)
    ensures KeepsRows(table, table)
  {
  }

  lemma VerifiedExists(j: Journal, id: string)
    requires AttemptVerifies(j, id, [])
    ensures id in j.attempts
  {
  }

  // ----------------------------------------------- transactions as effects

  lemma UnconsumedGenerations(j: Journal, id: string)
    requires id in j.attempts && Rows(j.questions, id) != [] && GenerationsVerify(j, id)
    requires !Consumed(j.attempts, id, |Rows(j.questions, id)| - 1)
    ensures forall g | 0 <= g < |Rows(j.questions, id)| :: !Consumed(j.attempts, id, g)
  {
    hide Consumed;
    var qs := Rows(j.questions, id);
    forall g | 0 <= g < |qs| ensures !Consumed(j.attempts, id, g) {
      if g + 1 < |qs| { assert Refreshes(j, id, qs, g + 1); }
    }
  }

  lemma FollowUpOpen(j: Journal, of: string, generation: nat, now: int)
    requires QuestionVerifies(j, of, generation, []) && QuestionStateOf(j, of, generation, now) == QOpen
    ensures of in j.attempts && generation + 1 == |Rows(j.questions, of)| <= DEPTH_LIMIT && Rows(j.events, of) == []
  {
  }

  lemma PrepareEffect(j: Journal, now: int, q: Request) returns (e: Effect)
    requires Prepare(j, now, q).Some?
    ensures Guarded(j, e) && Prepare(j, now, q).value == Effected(j, e)
  {
    hide AttemptVerifies, QuestionVerifies, QuestionStateOf, Permitted;
    if q.id in j.attempts { return Nothing; }
    var parent := Target(j, q.intake).value;
    var p := j.proposals[parent];
    var deadline := if q.kind.Initial? then now + q.seconds else Min(now + q.seconds, q.replyExpires);
    var a := Attempt(q.intake, parent, p.version, p.hash, q.eventKey, q.kind, q.input, now, deadline);
    if q.kind.FollowUp? {
      FollowUpOpen(j, q.kind.of, q.kind.generation, now);
      assert DisplayOf(j, q.kind, q.card, now).value.parent == parent;
      assert j.attempts[q.kind.of].parent == parent;
      assert !HasSuccessor(j.attempts, q.kind.of) by {
        assert Insertable(j, q.id, a);
      }
    }
    assert WalkGuard(j, a);
    e := AddAttempt(q.id, a);
  }

  lemma EventEffect(j: Journal, id: string, x: Event) returns (e: Effect)
    ensures Guarded(j, e) && AddEvent(j, id, x) == Effected(j, e)
    ensures e.Nothing? || (e.AddEvents? && e.id == id && e.list == Rows(j.events, id) + [x])
  {
    e := if x in Rows(j.events, id) then Nothing else AddEvents(id, Rows(j.events, id) + [x]);
  }

  lemma ClaimEffect(j: Journal, now: int, id: string, allowed: bool) returns (e: Effect)
    requires Claim(j, now, id, allowed).Some?
    ensures Guarded(j, e) && Claim(j, now, id, allowed).value == Effected(j, e)
    ensures e.Nothing? || e.AddEvents? || e.AddClaim?
  {
    hide AttemptVerifies, Current;
    if id !in j.publications { VerifiedExists(j, id); }
    if id in j.publications || StatusOf(j, id) != Prepared { return Nothing; }
    if now >= j.attempts[id].deadline { e := EventEffect(j, id, Uncertain); } else { e := AddClaim(id, now); }
  }

  lemma CancelEffect(j: Journal, id: string, allowed: bool) returns (e: Effect)
    requires Cancel(j, id, allowed).Some?
    ensures Guarded(j, e) && Cancel(j, id, allowed).value == Effected(j, e)
  {
    hide AttemptVerifies, Current;
    if id in j.claims {
      var k := AddEvent(j, id, CancelRequested);
      if CancelRequested in Rows(j.events, id) {
        e := EventEffect(j, id, Uncertain);
      } else {
        var first := EventEffect(j, id, CancelRequested);
        assert Rows(k.events, id) == first.list;
        var last := EventEffect(k, id, Uncertain);
        if last.Nothing? { return first; }
        assert k.events[id := last.list] == j.events[id := last.list];
        e := AddEvents(id, last.list);
      }
    } else {
      e := EventEffect(j, id, Cancelled);
    }
  }

  lemma PublishEffect(j: Journal, now: int, id: string, child: nat, hash: string, allowed: bool) returns (e: Effect)
    requires Publish(j, now, id, child, hash, allowed).Some?
    ensures Guarded(j, e) && Publish(j, now, id, child, hash, allowed).value == Effected(j, e)
  {
    hide AttemptVerifies, Current;
    if id !in j.publications { VerifiedExists(j, id); }
    e := if id in j.publications then Nothing else AddPublication(id, Publication(child, hash));
  }

  lemma AskEffect(j: Journal, now: int, id: string, allowed: bool) returns (e: Effect)
    requires Ask(j, now, id, allowed).Some?
    ensures Guarded(j, e) && Ask(j, now, id, allowed).value == Effected(j, e)
  {
    hide AttemptVerifies, Current, GenerationsVerify, Consumed;
    VerifiedExists(j, id);
    var qs := Rows(j.questions, id);
    if qs != [] {
      if QuestionStateOf(j, id, |qs| - 1, now) == QOpen { return Nothing; }
      UnconsumedGenerations(j, id);
      assert |qs| <= DEPTH_LIMIT by { CountedGenerations(j, id); }
    }
    e := AddQuestion(id, Question(Rows(j.results, id)[0].record, now, now + QUESTION_SECONDS));
  }

  lemma CountedGenerations(j: Journal, id: string)
    requires GenerationsVerify(j, id)
    ensures 0 < |Rows(j.questions, id)| <= DEPTH_LIMIT
  {
  }

  lemma RecordEffect(j: Journal, now: int, id: string, record: string, o: Observation, at: int,
                     allowed: bool) returns (e: Effect)
    requires Record(j, now, id, record, o, at, allowed).Some?
    ensures Guarded(j, e) && Record(j, now, id, record, o, at, allowed).value == Effected(j, e)
  {
    hide AttemptVerifies, Current;
    VerifiedExists(j, id);
    if record in j.records { return Nothing; }
    e := AddResult(id, ResultRow(record, Validate(j.attempts[id], o, at), at));
  }

  lemma DispatchEffect(j: Journal, now: int, id: string) returns (e: Effect)
    requires Dispatch(j, now, id).Some?
    ensures Guarded(j, e) && Dispatch(j, now, id).value == Effected(j, e)
    ensures (e.Send? || e.Drop?) && e.id == id
  {
    e := if j.claims[id] <= now < Min(j.claims[id] + CLAIM_SECONDS, j.attempts[id].deadline) then Send(id)
      else Drop(id, true);
  }

  lemma StepEffect(j: Journal, s: Step) returns (e: Effect)
    ensures Guarded(j, e) && After(j, s) == Effected(j, e)
  {
    hide Effected, Guarded, Prepare, Claim, Dispatch, Record, Publish, Cancel, Recover, Ask, Apply, AddEvent;
    if Try(j, s.now, s.op).None? { e := Nothing; NothingDone(j); return; }
    match s.op
    case OpPrepare(q) => e := PrepareEffect(j, s.now, q);
    case OpClaim(id, allowed) => e := ClaimEffect(j, s.now, id, allowed);
    case OpDispatch(id) => e := DispatchEffect(j, s.now, id);
    case OpCrash(id) => e := Drop(id, false); CrashDone(j, id);
    case OpDispatchFailed(id) => e := EventEffect(j, id, Uncertain);
    case OpRecord(id, record, o, at, allowed) => e := RecordEffect(j, s.now, id, record, o, at, allowed);
    case OpPublish(id, child, hash, allowed) => e := PublishEffect(j, s.now, id, child, hash, allowed);
    case OpCancel(id, allowed) => e := CancelEffect(j, id, allowed);
    case OpRecover(id, allowed) => e := RecoverEffect(j, id, allowed);
    case OpAsk(id, allowed) => e := AskEffect(j, s.now, id, allowed);
    case OpChange(c) => e := MoveProposals(c); ChangeDone(j, c);
  }

  lemma RecoverEffect(j: Journal, id: string, allowed: bool) returns (e: Effect)
    requires Recover(j, id, allowed).Some?
    ensures Guarded(j, e) && Recover(j, id, allowed).value == Effected(j, e)
  {
    hide AttemptVerifies, Current;
    if Recover(j, id, allowed).value == j { return Nothing; }
    e := EventEffect(j, id, Uncertain);
  }

  lemma NothingDone(j: Journal)
    ensures Guarded(j, Nothing) && j == Effected(j, Nothing)
  {
  }

  lemma CrashDone(j: Journal, id: string)
    ensures Guarded(j, Drop(id, false)) && Crash(j, id) == Some(Effected(j, Drop(id, false)))
  {
  }

  lemma ChangeDone(j: Journal, c: Change)
    requires Apply(j, c).Some?
    ensures Guarded(j, MoveProposals(c)) && Apply(j, c).value == Effected(j, MoveProposals(c))
  {
  }
}
