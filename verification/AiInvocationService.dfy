/** The invocation owner: each method is one transaction on the journal. */
module AiInvocationServices {
  import opened Prelude
  import opened AiJournal
  import opened AiRuns
  import opened AiChains
  import opened AiGuarantees

  /** The generations of an attempt's questions, checked one by one against the one before. */
  method CheckGenerations(j: Journal, id: string) returns (ok: bool)
    ensures ok == GenerationsVerify(j, id)
  {
    hide Asked, Refreshes;
    var qs, rs := Rows(j.questions, id), Rows(j.results, id);
    if |qs| == 0 || |qs| > DEPTH_LIMIT { return false; }
    var i := 0;
    while i < |qs|
      invariant 0 <= i <= |qs|
      invariant forall k | 0 <= k < i :: qs[k].expires == qs[k].created + QUESTION_SECONDS
      invariant forall k | 0 <= k < i :: Asked(rs, qs[k])
      invariant forall k | 0 < k < i :: Refreshes(j, id, qs, k)
    {
      if qs[i].expires != qs[i].created + QUESTION_SECONDS || !Asked(rs, qs[i]) { return false; }
      if i > 0 && !Refreshes(j, id, qs, i) { return false; }
      i := i + 1;
    }
    return true;
  }

  /** The ancestor walk: `permitted` grows until the chain starts, repeats or is too long. */
  method AncestorWalk(attempts: map<string, Attempt>, start: Option<string>) returns (r: Option<set<string>>)
    ensures r == Permitted(attempts, start, {})
  {
    var permitted, cursor := {}, start;
    while cursor.Some?
      invariant Permitted(attempts, start, {}) == Permitted(attempts, cursor, permitted)
      invariant |permitted| <= DEPTH_LIMIT
      decreases DEPTH_LIMIT - |permitted|, cursor.Some?
    {
      if cursor.value in permitted || |permitted| >= DEPTH_LIMIT { return None; }
      permitted, cursor := permitted + {cursor.value}, Predecessor(attempts, cursor.value);
    }
    return Some(permitted);
  }

  class AiInvocationService {
    var journal: Journal
    var stack: seq<string>

    ghost predicate Valid()
      reads this
    {
      Inv(journal) && stack == []
    }

    constructor ()
      ensures Valid() && journal == EMPTY
    {
      journal, stack := EMPTY, [];
      EmptyGood();
    }

    /** Verify an attempt and its ancestry; the stack is left as it was found. */
    method VerifyAttempt(id: string) returns (ok: bool)
      modifies this`stack
      ensures stack == old(stack) && ok == AttemptVerifies(journal, id, old(stack))
      ensures ok ==> id in journal.attempts
      decreases DEPTH_LIMIT - |stack|
    {
      hide GenerationsVerify;
      if id in stack || |stack| >= DEPTH_LIMIT { return false; }
      var before := stack;
      stack := stack + [id];
      ok := id in journal.attempts;
      if ok && journal.attempts[id].kind.FollowUp? {
        var kind := journal.attempts[id].kind;
        ok := VerifyAttempt(kind.of);
        if ok {
          ok := CheckGenerations(journal, kind.of);
          ok := ok && kind.generation < |Rows(journal.questions, kind.of)|;
        }
      }
      stack := before;
    }

    method GetStatus(id: string) returns (status: Option<Status>)
      requires Valid()
      modifies this`stack
      ensures Valid()
      ensures status.Some? <==> AttemptVerifies(journal, id, [])
      ensures status.Some? ==> id in journal.attempts && status.value == StatusOf(journal, id)
    {
      hide AttemptVerifies, StatusOf;
      var ok := VerifyAttempt(id);
      if !ok { return None; }
      VerifiedExists(journal, id);
      return Some(StatusOf(journal, id));
    }

    method PrepareAttempt(now: int, q: Request) returns (ok: bool)
      requires Valid()
      modifies this
      ensures Valid() && ok == Prepare(old(journal), now, q).Some?
      ensures journal == After(old(journal), Step(now, OpPrepare(q)))
    {
      hide Inv, AttemptVerifies, GenerationsVerify, QuestionStateOf, Permitted, Insertable;
      ghost var j := journal;
      ghost var s := Step(now, OpPrepare(q));
      StepKeeps(j, s);
      if q.id in journal.attempts {
        ok := VerifyAttempt(q.id);
        var a := journal.attempts[q.id];
        ok := ok && a.intake == q.intake && a.input == q.input && a.kind == q.kind;
        return;
      }
      ok := false;
      var target := Target(journal, q.intake);
      if !q.allowed || target.None? { return; }
      var start, display := None, q.card;
      if q.kind.FollowUp? {
        var of, generation := q.kind.of, q.kind.generation;
        start := Some(of);
        var verified := VerifyAttempt(of);
        if !verified { return; }
        VerifiedExists(journal, of);
        var checked := CheckGenerations(journal, of);
        if !checked || generation >= |Rows(journal.questions, of)| { return; }
        if QuestionStateOf(journal, of, generation, now) != QOpen { return; }
        var asked, question := journal.attempts[of], Rows(journal.questions, of)[generation];
        display := Display(asked.parent, asked.version, asked.hash, question.created, question.expires);
      }
      assert DisplayOf(j, q.kind, q.card, now) == Some(display);
      var parent := target.value;
      var p := journal.proposals[parent];
      if !q.kind.Initial? && !(display.parent == parent && display.version == p.version && display.hash == p.hash
                               && display.created <= now < display.expires) { return; }
      var permitted := AncestorWalk(journal.attempts, start);
      if permitted.None? { return; }
      if exists k | k in journal.attempts ::
        journal.attempts[k].parent == parent && k !in journal.publications && k !in permitted.value {
        return;
      }
      var deadline := if q.kind.Initial? then now + q.seconds else Min(now + q.seconds, q.replyExpires);
      var a := Attempt(q.intake, parent, p.version, p.hash, q.eventKey, q.kind, q.input, now, deadline);
      if !Insertable(journal, q.id, a) || now <= 0 || deadline <= now { return; }
      journal := journal.(attempts := journal.attempts[q.id := a]);
      ok := true;
    }

    method ClaimAttempt(now: int, id: string, allowed: bool) returns (ok: bool)
      requires Valid()
      modifies this
      ensures Valid() && ok == Claim(old(journal), now, id, allowed).Some?
      ensures journal == After(old(journal), Step(now, OpClaim(id, allowed)))
      ensures id in journal.holding && id !in old(journal.holding) ==> id !in old(journal.claims) && id !in journal.sent
    {
      hide Inv, AttemptVerifies, Current;
      StepKeeps(journal, Step(now, OpClaim(id, allowed)));
      HeldUnsent(After(journal, Step(now, OpClaim(id, allowed))), id);
      if id in journal.publications { return true; }
      ok := VerifyAttempt(id);
      if !ok || !allowed || !Current(journal, journal.attempts[id]) { return false; }
      var status := StatusOf(journal, id);
      if status == ResultStale { return false; }
      if status != Prepared { return true; }
      if now >= journal.attempts[id].deadline {
        journal := AddEvent(journal, id, Uncertain);
      } else {
        journal := journal.(claims := journal.claims[id := now], holding := journal.holding + {id});
      }
    }

    method RecordOutcome(now: int, id: string, record: string, o: Observation, observedAt: int,
                         allowed: bool) returns (ok: bool)
      requires Valid()
      modifies this
      ensures Valid() && ok == Record(old(journal), now, id, record, o, observedAt, allowed).Some?
      ensures journal == After(old(journal), Step(now, OpRecord(id, record, o, observedAt, allowed)))
    {
      hide Inv, AttemptVerifies, Current;
      StepKeeps(journal, Step(now, OpRecord(id, record, o, observedAt, allowed)));
      ok := VerifyAttempt(id);
      if !ok || !allowed || !Current(journal, journal.attempts[id]) { return false; }
      if id !in journal.claims || !(journal.claims[id] <= observedAt <= now) { return false; }
      var row := ResultRow(record, Validate(journal.attempts[id], o, observedAt), observedAt);
      if record in journal.records { return journal.records[record] == id && row in Rows(journal.results, id); }
      journal := journal.(results := journal.results[id := Rows(journal.results, id) + [row]],
        records := journal.records[record := id]);
    }

    method PublishAttempt(now: int, id: string, child: nat, hash: string, allowed: bool) returns (ok: bool)
      requires Valid()
      modifies this
      ensures Valid() && ok == Publish(old(journal), now, id, child, hash, allowed).Some?
      ensures journal == After(old(journal), Step(now, OpPublish(id, child, hash, allowed)))
      ensures ok ==> id in journal.publications
      ensures ok && id !in old(journal).publications ==>
                id in journal.attempts && StatusOf(journal, id) == Published(Publication(child, hash), true)
    {
      hide Inv, AttemptVerifies, Current;
      StepKeeps(journal, Step(now, OpPublish(id, child, hash, allowed)));
      if id in journal.publications { return true; }
      ok := VerifyAttempt(id);
      if !ok || !allowed || !Current(journal, journal.attempts[id]) || Rows(journal.events, id) != [] { return false; }
      VerifiedExists(journal, id);
      var a, rs := journal.attempts[id], Rows(journal.results, id);
      if |rs| != 1 || rs[0].verdict != Verdict.Valid || now >= a.deadline { return false; }
      if Target(journal, a.intake) != Some(a.parent) || child in journal.proposals { return false; }
      var superseded := journal.proposals[a.parent].(pending := false);
      journal := journal.(proposals := journal.proposals[a.parent := superseded]
                                               [child := Proposal(a.intake, true, 0, hash)],
                          targets := journal.targets[a.intake := child],
                          publications := journal.publications[id := Publication(child, hash)]);
    }

    method CancelAttempt(now: int, id: string, allowed: bool) returns (ok: bool)
      requires Valid()
      modifies this
      ensures Valid() && ok == Cancel(old(journal), id, allowed).Some?
      ensures journal == After(old(journal), Step(now, OpCancel(id, allowed)))
      ensures ok ==> Rows(journal.events, id) != [] && id !in journal.publications
    {
      hide Inv, AttemptVerifies, Current;
      StepKeeps(journal, Step(now, OpCancel(id, allowed)));
      ok := VerifyAttempt(id);
      if !ok || !allowed || !Current(journal, journal.attempts[id]) || id in journal.publications { return false; }
      if id in journal.claims {
        journal := AddEvent(journal, id, CancelRequested);
        journal := AddEvent(journal, id, Uncertain);
      } else {
        journal := AddEvent(journal, id, Cancelled);
      }
    }

    method RecoverAttempt(now: int, id: string, allowed: bool) returns (ok: bool)
      requires Valid()
      modifies this
      ensures Valid() && ok == Recover(old(journal), id, allowed).Some?
      ensures journal == After(old(journal), Step(now, OpRecover(id, allowed)))
    {
      hide Inv, AttemptVerifies, Current;
      StepKeeps(journal, Step(now, OpRecover(id, allowed)));
      ok := VerifyAttempt(id);
      if !ok || !allowed { return false; }
      VerifiedExists(journal, id);
      if StatusOf(journal, id) == StatusUnknown && Current(journal, journal.attempts[id]) {
        journal := AddEvent(journal, id, Uncertain);
      }
    }

    method AskClarification(now: int, id: string, allowed: bool) returns (ok: bool)
      requires Valid()
      modifies this
      ensures Valid() && ok == Ask(old(journal), now, id, allowed).Some?
      ensures journal == After(old(journal), Step(now, OpAsk(id, allowed)))
    {
      hide Inv, AttemptVerifies, Current, GenerationsVerify, QuestionStateOf;
      StepKeeps(journal, Step(now, OpAsk(id, allowed)));
      ok := VerifyAttempt(id);
      if !ok || !allowed || !Current(journal, journal.attempts[id]) { return false; }
      VerifiedExists(journal, id);
      if StatusOf(journal, id) != Outcome(NeedsClarification) || now <= 0 { return false; }
      var qs := Rows(journal.questions, id);
      if qs != [] {
        var checked := CheckGenerations(journal, id);
        if !checked { return false; }
        var state := QuestionStateOf(journal, id, |qs| - 1, now);
        if state == QOpen { return true; }
        if state != QExpired { return false; }
      }
      var question := Question(Rows(journal.results, id)[0].record, now, now + QUESTION_SECONDS);
      journal := journal.(questions := journal.questions[id := qs + [question]]);
    }

    /** Claim and, if this call claimed, call the provider once; the outcome is recorded or left
        uncertain. `answered` is what the provider did: an observation, or an exception. */
    method Invoke(claimAt: int, sendAt: int, recordAt: int, id: string, allowed: bool, record: string,
                  answered: Option<Observation>)
      returns (dispatched: bool)
      requires Valid() && id !in journal.holding
      modifies this
      ensures Valid() && id !in journal.holding
      ensures journal.sent == old(journal.sent) + (if dispatched then [id] else [])
      ensures dispatched ==> id !in old(journal.claims) && id !in old(journal.sent)
      ensures exists steps :: journal == Run(old(journal), steps)
    {
      hide Inv, After, Claim, Dispatch, Record, DispatchFailed, AddEvent;
      ghost var j := journal;
      dispatched := false;
      ghost var steps := [Step(claimAt, OpClaim(id, allowed))];
      assert steps == [] + steps;
      RunExtends(j, [], steps[0]);
      ClaimSends(j, claimAt, id, allowed);
      var claimed := ClaimAttempt(claimAt, id, allowed);
      assert journal == Run(j, steps);
      if id !in journal.holding { return; }
      ghost var send := Step(sendAt, OpDispatch(id));
      StepKeeps(journal, send);
      DispatchSends(journal, sendAt, id);
      RunExtends(j, steps, send);
      journal := Dispatch(journal, sendAt, id).value;
      steps := steps + [send];
      if id !in journal.sent { return; }
      dispatched := true;
      ghost var last := Step(recordAt,
                             if answered.None? then OpDispatchFailed(id)
                             else OpRecord(id, record, answered.value, recordAt, allowed));
      RunExtends(j, steps, last);
      QuietStep(journal, last);
      StepKeeps(journal, last);
      if answered.Some? {
        var ok := RecordOutcome(recordAt, id, record, answered.value, recordAt, allowed);
      } else {
        FailureIsStep(journal, recordAt, id);
        journal := AddEvent(journal, id, Uncertain);
      }
      assert journal == Run(j, steps + [last]);
    }
  }

  lemma RunExtends(j: Journal, steps: seq<Step>, s: Step)
    ensures Run(j, steps + [s]) == After(Run(j, steps), s)
  {
    hide After;
    assert (steps + [s])[..|steps|] == steps;
  }

  lemma ClaimSends(j: Journal, now: int, id: string, allowed: bool)
    requires Inv(j) && id !in j.holding
    ensures var j' := After(j, Step(now, OpClaim(id, allowed)));
            && j'.sent == j.sent
            && (id in j'.holding ==> id !in j.claims && id !in j.sent)
  {
    ClaimIsStep(j, now, id, allowed);
    if Claim(j, now, id, allowed).Some? {
      var e := ClaimEffect(j, now, id, allowed);
      EffectTables(j, e);
      hide After, Claim, Effected, HasChain, AttemptSound, QuestionsSound, PublishedSound, Owned, ChildrenSound,
        AttemptGuard, QuestionGuard, PublicationGuard;
    }
  }

  lemma ClaimIsStep(j: Journal, now: int, id: string, allowed: bool)
    ensures var r := Claim(j, now, id, allowed);
            After(j, Step(now, OpClaim(id, allowed))) == if r.Some? then r.value else j
  {
    hide Claim;
  }

  lemma DispatchSends(j: Journal, now: int, id: string)
    requires Inv(j) && id in j.holding
    ensures Dispatch(j, now, id) == Some(After(j, Step(now, OpDispatch(id))))
    ensures var j' := After(j, Step(now, OpDispatch(id)));
            && id !in j'.holding
            && (j'.sent == if id in j'.sent then j.sent + [id] else j.sent)
  {
    assert id in j.claims && id in j.attempts && id !in j.sent by {
      hide HasChain, AttemptSound, QuestionsSound, PublishedSound, Owned, ChildrenSound;
    }
    hide Inv, After;
    DispatchMoves(j, now, id);
    DispatchIsStep(j, now, id);
  }

  lemma DispatchMoves(j: Journal, now: int, id: string)
    requires id in j.holding && id in j.claims && id in j.attempts && id !in j.sent
    ensures var r := Dispatch(j, now, id);
            && r.Some? && id !in r.value.holding
            && r.value.sent == if id in r.value.sent then j.sent + [id] else j.sent
  {
    var e := DispatchEffect(j, now, id);
    EffectTables(j, e);
    hide Effected, Dispatch, AttemptGuard, PublicationGuard, QuestionGuard;
  }

  lemma DispatchIsStep(j: Journal, now: int, id: string)
    requires Dispatch(j, now, id).Some?
    ensures Dispatch(j, now, id) == Some(After(j, Step(now, OpDispatch(id))))
  {
    hide Dispatch;
  }

  lemma QuietStep(j: Journal, s: Step)
    requires s.op.OpRecord? || s.op.OpDispatchFailed?
    ensures After(j, s).sent == j.sent && After(j, s).holding == j.holding
  {
    hide AttemptVerifies, Current;
  }

  lemma FailureIsStep(j: Journal, now: int, id: string)
    requires id in j.sent
    ensures After(j, Step(now, OpDispatchFailed(id))) == AddEvent(j, id, Uncertain)
  {
    hide AddEvent;
  }

  lemma HeldUnsent(j: Journal, id: string)
    requires Inv(j)
    ensures id in j.holding ==> id in j.claims && id !in j.sent
  {
  }
}
