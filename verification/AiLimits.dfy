/** Where the limit of 128 bites: the write paths admit one more than verification accepts. */
module AiLimits {
  import opened Prelude
  import opened AiJournal
  import opened AiRuns
  import opened AiChains
  import opened AiGuarantees

  // ------------------------------------------------------------- follow-ups

  /** The ancestor walk of a follow-up to position `k` of a chain succeeds for up to 128 ancestors. */
  lemma {:induction false} WalkSucceeds(attempts: map<string, Attempt>, parent: nat, c: seq<string>, k: nat,
                                        seen: set<string>)
    requires IsChain(attempts, parent, c) && k < |c|
    requires forall i | 0 <= i <= k :: c[i] !in seen
    ensures Permitted(attempts, Some(c[k]), seen).Some? <==> |seen| + k + 1 <= DEPTH_LIMIT
    decreases k
  {
    assert Placed(attempts, parent, c, k);
    if k > 0 && |seen| < DEPTH_LIMIT {
      WalkSucceeds(attempts, parent, c, k - 1, seen + {c[k]});
    }
  }

  /** A follow-up to the 128th attempt of a chain, when it is prepared, can never be verified,
      so it is never claimed, published or cancelled. */
  lemma FollowUpBeyondDepth(steps: seq<Step>, now: int, q: Request, more: seq<Step>, parent: nat, c: seq<string>)
    requires var j := Run(EMPTY, steps);
             && Prepare(j, now, q).Some? && q.id !in j.attempts
             && IsChain(j.attempts, parent, c) && |c| == DEPTH_LIMIT && q.kind.FollowUp?
             && q.kind.of == c[DEPTH_LIMIT - 1]
    ensures !AttemptVerifies(Run(Run(EMPTY, steps), [Step(now, OpPrepare(q))] + more), q.id, [])
  {
    hide Run, Inv, IsChain, Prepare, After, Permitted;
    var j := Run(EMPTY, steps);
    Reached(steps);
    var s := Step(now, OpPrepare(q));
    PreparedLast(j, now, q, parent, c);
    assert Run(j, [s]) == After(j, s) by { SingleStep(j, s); }
    assert After(j, s) == Prepare(j, now, q).value by { PrepareIsStep(j, now, q); }
    var j' := Run(Run(j, [s]), more);
    RunsJoin(j, [s], more);
    RunKeeps(j, [s]);
    RunKeeps(Run(j, [s]), more);
    NeverVerified(Run(j, [s]), j', parent, c + [q.id], DEPTH_LIMIT);
  }

  lemma NeverVerified(j: Journal, j': Journal, parent: nat, c: seq<string>, k: nat)
    requires Inv(j') && Grows(j, j') && IsChain(j.attempts, parent, c) && DEPTH_LIMIT <= k < |c|
    ensures !AttemptVerifies(j', c[k], [])
  {
    hide IsChain, AttemptSound, PublishedSound, DispatchSound, Owned, ChildrenSound, QuestionsSound, AttemptVerifies;
    assert HasChain(j'.attempts, parent);
    var d :| IsChain(j'.attempts, parent, d);
    ChainsAgree(j.attempts, parent, c, j'.attempts, d, k);
    ChainVerifies(j', parent, d, k, []);
  }

  lemma SingleStep(j: Journal, s: Step)
    ensures Run(j, [s]) == After(j, s)
  {
    hide After;
    assert [s][..0] == [];
    assert Run(j, [s][..0]) == j;
  }

  lemma PrepareIsStep(j: Journal, now: int, q: Request)
    requires Prepare(j, now, q).Some?
    ensures After(j, Step(now, OpPrepare(q))) == Prepare(j, now, q).value
  {
    hide Prepare;
  }

  lemma PreparedLast(j: Journal, now: int, q: Request, parent: nat, c: seq<string>)
    requires Inv(j) && Prepare(j, now, q).Some? && q.id !in j.attempts
    requires IsChain(j.attempts, parent, c) && c != [] && q.kind.FollowUp? && q.kind.of == c[|c| - 1]
    ensures IsChain(Prepare(j, now, q).value.attempts, parent, c + [q.id])
  {
    var e := PrepareEffect(j, now, q);
    EffectTables(j, e);
    assert Placed(j.attempts, parent, c, |c| - 1);
    PreparedAttempt(j, now, q);
    hide Prepare, Effected, Inv, IsChain, Permitted;
    ChainExtends(j.attempts, q.id, e.attempt, c);
  }

  lemma PreparedAttempt(j: Journal, now: int, q: Request)
    requires Prepare(j, now, q).Some? && q.id !in j.attempts
    ensures q.id in Prepare(j, now, q).value.attempts
    ensures Prepare(j, now, q).value.attempts[q.id].kind == q.kind
  {
    hide AttemptVerifies, QuestionVerifies, QuestionStateOf, Permitted, DisplayOf, Insertable;
  }

  // -------------------------------------------------------------- questions

  /** An attempt that waits for an answer nobody has given. */
  ghost predicate Waiting(j: Journal, id: string) {
    && Usable(j, id, true) && StatusOf(j, id) == Outcome(NeedsClarification)
    && !HasSuccessor(j.attempts, id)
  }

  function Next(j: Journal, id: string): int {
    var qs := Rows(j.questions, id);
    if qs == [] || qs[|qs| - 1].expires <= 0 then 1 else qs[|qs| - 1].expires
  }

  lemma Uneventful(j: Journal, id: string)
    requires id in j.attempts && StatusOf(j, id) == Outcome(NeedsClarification)
    ensures Rows(j.events, id) == [] && |Rows(j.results, id)| == 1
  {
    SomeEvent(Rows(j.events, id));
  }

  lemma SomeEvent(es: seq<Event>)
    ensures es != [] ==> Cancelled in es || CancelRequested in es || Uncertain in es
  {
    if es != [] {
      match es[0]
      case Cancelled => assert es[0] in es;
      case CancelRequested => assert es[0] in es;
      case Uncertain => assert es[0] in es;
    }
  }

  lemma AskSucceeds(j: Journal, id: string)
    requires Usable(j, id, true) && id in j.attempts && StatusOf(j, id) == Outcome(NeedsClarification)
    requires Rows(j.questions, id) != [] ==>
               GenerationsVerify(j, id) && !Consumed(j.attempts, id, |Rows(j.questions, id)| - 1)
    ensures var r := Ask(j, Next(j, id), id, true);
            r.Some? && |Rows(r.value.questions, id)| == |Rows(j.questions, id)| + 1
  {
    Uneventful(j, id);
    hide AttemptVerifies, GenerationsVerify, Consumed, StatusOf, Current;
    var qs := Rows(j.questions, id);
    if qs != [] {
      assert QuestionVerifies(j, id, |qs| - 1, []);
      assert QuestionStateOf(j, id, |qs| - 1, Next(j, id)) == QExpired;
    }
  }

  /** After expiry, up to 128 questions are each followed by another one. */
  lemma AskAgain(j: Journal, id: string)
    requires Inv(j) && Waiting(j, id) && |Rows(j.questions, id)| <= DEPTH_LIMIT
    ensures var s := Step(Next(j, id), OpAsk(id, true));
            && Waiting(After(j, s), id)
            && Ask(j, Next(j, id), id, true) == Some(After(j, s))
            && |Rows(After(j, s).questions, id)| == |Rows(j.questions, id)| + 1
  {
    VerifiedExists(j, id);
    var now, qs := Next(j, id), Rows(j.questions, id);
    var s := Step(now, OpAsk(id, true));
    assert qs != [] ==> !Consumed(j.attempts, id, |qs| - 1);
    hide Inv, AttemptVerifies, GenerationsVerify, StatusOf, Current, Ask, After, Consumed, Grows;
    if qs != [] { GenerationsHold(j, id); }
    AskSucceeds(j, id);
    AskIsStep(j, now, id, true);
    StepKeeps(j, s);
    VerifiesForever(j, After(j, s), id);
    StillWaiting(j, now, id);
  }

  lemma StillWaiting(j: Journal, now: int, id: string)
    requires id in j.attempts && Ask(j, now, id, true).Some?
    ensures var j' := Ask(j, now, id, true).value;
            && j'.attempts == j.attempts && StatusOf(j', id) == StatusOf(j, id)
            && (Current(j', j.attempts[id]) <==> Current(j, j.attempts[id]))
  {
    hide AttemptVerifies, GenerationsVerify, Consumed;
  }

  lemma {:induction false} AskMany(j: Journal, id: string, n: nat) returns (steps: seq<Step>)
    requires Inv(j) && Waiting(j, id) && |Rows(j.questions, id)| <= n <= DEPTH_LIMIT
    ensures Waiting(Run(j, steps), id) && |Rows(Run(j, steps).questions, id)| == n
    decreases n
  {
    hide Inv, Waiting, After;
    steps := [];
    if |Rows(j.questions, id)| < n {
      var front := AskMany(j, id, n - 1);
      var k := Run(j, front);
      RunKeeps(j, front);
      AskAgain(k, id);
      steps := front + [Step(Next(k, id), OpAsk(id, true))];
      assert steps[..|steps| - 1] == front;
    }
  }

  const INTAKE := "i"
  const FIRST := "a"

  const OPENING: seq<Step> := [
    Step(1, OpChange(Receive(INTAKE, 0, "h"))),
    Step(1, OpPrepare(Request(FIRST, INTAKE, Initial, "initial", Display(0, 0, "h", 0, 0), "e", 300, 0, true))),
    Step(1, OpClaim(FIRST, true)),
    Step(1, OpRecord(FIRST, "r", Response(true, ReadsUnclear), 1, true))]

  /** A run whose last step writes a question that no later verification of the attempt accepts. */
  lemma QuestionBeyondLimit() returns (steps: seq<Step>, now: int)
    ensures var j := Run(EMPTY, steps);
            && Ask(j, now, FIRST, true).Some?
            && |Rows(Ask(j, now, FIRST, true).value.questions, FIRST)| == DEPTH_LIMIT + 1
            && forall more: seq<Step>, g: nat ::
                 !QuestionVerifies(Run(Ask(j, now, FIRST, true).value, more), FIRST, g, [])
  {
    hide Inv, Waiting, Run, Ask, After;
    OpeningWaits();
    Reached(OPENING);
    var j := Run(EMPTY, OPENING);
    var more := AskMany(j, FIRST, DEPTH_LIMIT);
    steps := OPENING + more;
    RunsJoin(EMPTY, OPENING, more);
    Reached(steps);
    var k := Run(EMPTY, steps);
    now := Next(k, FIRST);
    AskAgain(k, FIRST);
    assert |Rows(Ask(k, now, FIRST, true).value.questions, FIRST)| != |Rows(k.questions, FIRST)|;
    AskWrites(k, now, FIRST, true);
  }

  const P0 := Proposal(INTAKE, true, 0, "h")
  const A0 := Attempt(INTAKE, 0, 0, "h", "e", Initial, "initial", 1, 301)
  const J1 := EMPTY.(proposals := map[0 := P0], targets := map[INTAKE := 0])
  const J2 := J1.(attempts := map[FIRST := A0])
  const J3 := J2.(claims := map[FIRST := 1], holding := {FIRST})
  const J4 := J3.(results := map[FIRST := [ResultRow("r", NeedsClarification, 1)]], records := map["r" := FIRST])

  lemma OpeningPrepares()
    ensures After(EMPTY, OPENING[0]) == J1 && After(J1, OPENING[1]) == J2
  {
  }

  lemma OpeningClaims()
    ensures After(J2, OPENING[2]) == J3
  {
    assert AttemptVerifies(J2, FIRST, []);
  }

  lemma OpeningRecords()
    ensures After(J3, OPENING[3]) == J4
  {
    assert AttemptVerifies(J3, FIRST, []);
    assert Usable(J3, FIRST, true);
    var row := ResultRow("r", NeedsClarification, 1);
    assert Rows(J3.results, FIRST) + [row] == [row];
    assert Record(J3, 1, FIRST, "r", Response(true, ReadsUnclear), 1, true) == Some(J4);
  }

  lemma OpeningRuns()
    ensures Run(EMPTY, OPENING) == J4
  {
    var s := OPENING;
    assert s[..4] == s && s[..4][..3] == s[..3] && s[..3][..2] == s[..2] && s[..2][..1] == s[..1] && s[..1][..0] == [];
    OpeningPrepares();
    OpeningClaims();
    OpeningRecords();
    hide After;
    assert Run(EMPTY, s[..1]) == J1;
    assert Run(EMPTY, s[..2]) == J2;
    assert Run(EMPTY, s[..3]) == J3;
    assert Run(EMPTY, s[..4]) == J4;
  }

  lemma OpeningWaits()
    ensures Waiting(Run(EMPTY, OPENING), FIRST) && Rows(Run(EMPTY, OPENING).questions, FIRST) == []
  {
    OpeningRuns();
    hide Run, After;
    assert Waiting(J4, FIRST);
  }
}
