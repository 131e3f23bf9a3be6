/** A run whose follow-up chain grows past what verification accepts. */
module AiLongChain {
  import opened Prelude
  import opened AiJournal
  import opened AiRuns
  import opened AiChains
  import opened AiGuarantees
  import opened AiLimits

  /** A name of `n` characters; the run names its n-th attempt, reply and record so. */
  function Name(n: nat): (r: string)
    ensures |r| == n
  {
    seq(n, _ => 'x')
  }

  /** The intake's current pending proposal is 0 and nothing was published. */
  ghost predicate Setting(j: Journal) {
    && INTAKE in j.targets && j.targets[INTAKE] == 0 && INTAKE !in j.decided
    && 0 in j.proposals && j.proposals[0] == P0 && j.publications == map[]
  }

  ghost predicate Untouched(j: Journal, x: string) {
    Rows(j.results, x) == [] && Rows(j.events, x) == [] && Rows(j.questions, x) == []
  }

  /** Names longer than `n` are free. */
  ghost predicate Sized(j: Journal, n: nat) {
    && (forall id | id in j.attempts :: |id| <= n && (!j.attempts[id].kind.Initial? ==> |j.attempts[id].input| <= n))
    && (forall r | r in j.records :: |r| <= n)
    && (forall x: string | x !in j.attempts :: Untouched(j, x))
  }

  ghost predicate OnTarget(a: Attempt) {
    a.intake == INTAKE && a.parent == 0 && a.version == 0 && a.hash == "h" && a.deadline == 301
  }

  /** The attempt waits for an answer to its one question, which is open at time 1. */
  ghost predicate Ready(j: Journal, id: string) {
    && id in j.attempts && OnTarget(j.attempts[id]) && Rows(j.events, id) == []
    && |Rows(j.questions, id)| == 1 && Rows(j.questions, id)[0].created == 1 && Rows(j.questions, id)[0].expires == 901
  }

  ghost predicate Stage(j: Journal, c: seq<string>) {
    && Inv(j) && c != [] && IsChain(j.attempts, 0, c)
    && Setting(j) && Sized(j, |c|) && Ready(j, c[|c| - 1])
  }

  function NextRequest(c: seq<string>): Request
    requires c != []
  {
    Request(Name(|c| + 1), INTAKE, FollowUp(c[|c| - 1], 0), Name(|c| + 1), Display(0, 0, "h", 0, 0), "e", 300, 1000,
      true)
  }

  function NextAttempt(c: seq<string>): Attempt
    requires c != []
  {
    Attempt(INTAKE, 0, 0, "h", "e", FollowUp(c[|c| - 1], 0), Name(|c| + 1), 1, 301)
  }

  // ------------------------------------------------------------- preparing

  lemma {:induction false} WalkCovers(attempts: map<string, Attempt>, c: seq<string>, k: nat, seen: set<string>)
    requires IsChain(attempts, 0, c) && k < |c| && Permitted(attempts, Some(c[k]), seen).Some?
    ensures seen <= Permitted(attempts, Some(c[k]), seen).value
    ensures forall i | 0 <= i <= k :: c[i] in Permitted(attempts, Some(c[k]), seen).value
    decreases k
  {
    assert Placed(attempts, 0, c, k);
    if k > 0 { WalkCovers(attempts, c, k - 1, seen + {c[k]}); }
  }

  lemma LastUnfollowed(attempts: map<string, Attempt>, j: Journal, c: seq<string>)
    requires Inv(j) && attempts == j.attempts && IsChain(attempts, 0, c) && c != []
    ensures !HasSuccessor(attempts, c[|c| - 1])
  {
    hide AttemptSound, PublishedSound, DispatchSound, Owned, ChildrenSound, QuestionsSound;
    var last := c[|c| - 1];
    assert Placed(attempts, 0, c, |c| - 1);
    if HasSuccessor(attempts, last) {
      var s :| s in attempts && attempts[s].kind.FollowUp? && attempts[s].kind.of == last;
      var d := SuccessorPlace(j, s, last);
      var k :| 0 < k < |d| && d[k] == s && d[k - 1] == last;
      ChainsAgree(attempts, 0, d, attempts, c, k);
      ChainsAgree(attempts, 0, d, attempts, c, k - 1);
    }
  }

  lemma OpenQuestion(j: Journal, c: seq<string>)
    requires Stage(j, c) && |c| <= DEPTH_LIMIT
    ensures var last := c[|c| - 1];
            && QuestionVerifies(j, last, 0, []) && last in j.attempts
            && QuestionStateOf(j, last, 0, 1) == QOpen && !HasSuccessor(j.attempts, last)
  {
    var last := c[|c| - 1];
    LastUnfollowed(j.attempts, j, c);
    assert !Consumed(j.attempts, last, 0);
    assert Current(j, j.attempts[last]);
    hide Inv, IsChain, Current, Consumed, HasSuccessor, GenerationsVerify, AttemptVerifies, Sized, Setting;
    ChainVerifies(j, 0, c, |c| - 1, []);
    GenerationsHold(j, last);
  }

  lemma NameIsFree(j: Journal, c: seq<string>)
    requires Stage(j, c)
    ensures Insertable(j, Name(|c| + 1), NextAttempt(c)) && Name(|c| + 1) !in j.attempts && Name(|c| + 1) !in j.records
  {
    LastUnfollowed(j.attempts, j, c);
    hide Inv, IsChain, Ready, Setting, Name;
    var id := Name(|c| + 1);
    forall k | k in j.attempts
      ensures !j.attempts[k].kind.Initial? ==> j.attempts[k].input != id
      ensures !(j.attempts[k].kind.FollowUp? && j.attempts[k].kind.of == c[|c| - 1]) {
      assert |id| == |c| + 1;
    }
  }

  /** The follow-up is prepared even when the chain already has 128 attempts. */
  lemma PrepareNext(j: Journal, c: seq<string>)
    requires Stage(j, c) && |c| <= DEPTH_LIMIT
    ensures Prepare(j, 1, NextRequest(c)) == Some(j.(attempts := j.attempts[Name(|c| + 1) := NextAttempt(c)]))
  {
    var last := c[|c| - 1];
    OpenQuestion(j, c);
    NameIsFree(j, c);
    AllInWalk(j.attempts, c);
    var walk := Permitted(j.attempts, Some(last), {}).value;
    assert Target(j, INTAKE) == Some(0);
    hide Inv, IsChain, Permitted, QuestionVerifies, QuestionStateOf, Insertable, HasSuccessor, Sized, Name, Target;
    assert DisplayOf(j, FollowUp(last, 0), Display(0, 0, "h", 0, 0), 1) == Some(Display(0, 0, "h", 1, 901));
    hide DisplayOf, Ready, Stage;
    Accepted(j, NextRequest(c), Display(0, 0, "h", 1, 901), walk);
  }

  lemma AllInWalk(attempts: map<string, Attempt>, c: seq<string>)
    requires IsChain(attempts, 0, c) && 0 < |c| <= DEPTH_LIMIT
    ensures var walk := Permitted(attempts, Some(c[|c| - 1]), {});
            walk.Some? && forall k | k in attempts && attempts[k].parent == 0 :: k in walk.value
  {
    hide IsChain, Permitted;
    WalkSucceeds(attempts, 0, c, |c| - 1, {});
    WalkCovers(attempts, c, |c| - 1, {});
    forall k | k in attempts && attempts[k].parent == 0 ensures k in Permitted(attempts, Some(c[|c| - 1]), {}).value {
      InChain(attempts, 0, c, k);
      var i :| 0 <= i < |c| && c[i] == k;
    }
  }

  /** A follow-up at time 1 that passes every check is prepared. */
  lemma Accepted(j: Journal, q: Request, d: Display, walk: set<string>)
    requires q.kind.FollowUp? && q.allowed && q.seconds == 300 && q.replyExpires == 1000 && q.intake == INTAKE
    requires Setting(j) && Target(j, INTAKE) == Some(0) && DisplayOf(j, q.kind, q.card, 1) == Some(d)
    requires d == Display(0, 0, "h", 1, 901) && Permitted(j.attempts, Some(q.kind.of), {}) == Some(walk)
    requires forall k | k in j.attempts && j.attempts[k].parent == 0 :: k in walk
    requires Insertable(j, q.id, Attempt(INTAKE, 0, 0, "h", q.eventKey, q.kind, q.input, 1, 301)) && q.id !in j.attempts
    ensures Prepare(j, 1, q)
            == Some(j.(attempts := j.attempts[q.id := Attempt(INTAKE, 0, 0, "h", q.eventKey, q.kind, q.input, 1, 301)]))
  {
    hide Target, DisplayOf, Permitted, Insertable;
  }

  // ------------------------------------------------------------ one more link

  /** After the preparation: the new last attempt is on the current target and untouched. */
  ghost predicate Linked(j: Journal, c: seq<string>) {
    && Inv(j) && c != [] && |c| <= DEPTH_LIMIT && IsChain(j.attempts, 0, c) && Setting(j)
    && c[|c| - 1] in j.attempts && OnTarget(j.attempts[c[|c| - 1]])
  }

  lemma LastUsable(j: Journal, c: seq<string>)
    requires Linked(j, c)
    ensures Usable(j, c[|c| - 1], true)
  {
    assert Current(j, j.attempts[c[|c| - 1]]);
    hide Inv, IsChain, Current;
    ChainVerifies(j, 0, c, |c| - 1, []);
  }

  lemma StillLinked(j: Journal, c: seq<string>, s: Step)
    requires Linked(j, c) && After(j, s).attempts == j.attempts && Setting(After(j, s))
    ensures Linked(After(j, s), c)
  {
    hide Inv, IsChain, After;
    StepKeeps(j, s);
  }

  lemma ClaimNext(j: Journal, c: seq<string>)
    requires Linked(j, c) && Untouched(j, c[|c| - 1]) && c[|c| - 1] !in j.claims
    ensures var id := c[|c| - 1];
            After(j, Step(1, OpClaim(id, true))) == j.(claims := j.claims[id := 1], holding := j.holding + {id})
  {
    LastUsable(j, c);
    hide Inv, IsChain, AttemptVerifies;
  }

  lemma RecordNext(j: Journal, c: seq<string>, record: string)
    requires Linked(j, c) && Untouched(j, c[|c| - 1]) && c[|c| - 1] in j.claims && j.claims[c[|c| - 1]] == 1
             && record !in j.records
    ensures var id := c[|c| - 1];
            After(j, Step(1, OpRecord(id, record, Response(true, ReadsUnclear), 1, true)))
            == j.(results := j.results[id := [ResultRow(record, NeedsClarification, 1)]],
              records := j.records[record := id])
  {
    LastUsable(j, c);
    hide Inv, IsChain, AttemptVerifies, Current;
    var row := ResultRow(record, NeedsClarification, 1);
    assert Rows(j.results, c[|c| - 1]) + [row] == [row];
  }

  lemma AskNext(j: Journal, c: seq<string>, record: string)
    requires Linked(j, c) && Rows(j.questions, c[|c| - 1]) == [] && Rows(j.events, c[|c| - 1]) == []
    requires Rows(j.results, c[|c| - 1]) == [ResultRow(record, NeedsClarification, 1)]
    ensures var id := c[|c| - 1];
            After(j, Step(1, OpAsk(id, true))) == j.(questions := j.questions[id := [Question(record, 1, 901)]])
  {
    LastUsable(j, c);
    hide Inv, IsChain, AttemptVerifies, Current;
    var q := Question(record, 1, 901);
    assert Rows(j.questions, c[|c| - 1]) + [q] == [q];
  }

  /** Prepare, claim, record and ask: the chain has one more attempt, waiting in its turn. */
  lemma OneMoreLink(j: Journal, c: seq<string>) returns (steps: seq<Step>)
    requires Stage(j, c) && |c| < DEPTH_LIMIT
    ensures Stage(Run(j, steps), c + [Name(|c| + 1)])
  {
    hide *;
    StageSized(j, c);
    var id := Name(|c| + 1);
    var s1, s2 := Step(1, OpPrepare(NextRequest(c))), Step(1, OpClaim(id, true));
    var s3 := Step(1, OpRecord(id, id, Response(true, ReadsUnclear), 1, true));
    var s4 := Step(1, OpAsk(id, true));
    steps := [s1, s2, s3, s4];
    FourSteps(j, s1, s2, s3, s4);
    LinkAnswered(j, c);
  }

  lemma LinkAnswered(j: Journal, c: seq<string>)
    requires Stage(j, c) && |c| < DEPTH_LIMIT && c != []
    ensures var id := Name(|c| + 1);
            Stage(After(After(After(After(j, Step(1, OpPrepare(NextRequest(c)))), Step(1, OpClaim(id, true))),
                              Step(1, OpRecord(id, id, Response(true, ReadsUnclear), 1, true))),
                        Step(1, OpAsk(id, true))), c + [id])
  {
    hide *;
    PreparedLink(j, c);
    StageSized(j, c);
    var id := Name(|c| + 1);
    var d, j1 := c + [id], After(j, Step(1, OpPrepare(NextRequest(c))));
    AfterAnswer(j, j1, c, d, id);
  }

  lemma AfterAnswer(j: Journal, j1: Journal, c: seq<string>, d: seq<string>, id: string)
    requires c != [] && d == c + [id] && id == Name(|c| + 1) && Sized(j, |c|) && id !in j.attempts
    requires Linked(j1, d) && Untouched(j1, id) && id !in j1.claims && id !in j1.records
    requires j1.attempts == j.attempts[id := NextAttempt(c)] && j1.records == j.records && j1.results == j.results
    requires j1.events == j.events && j1.questions == j.questions
    ensures Stage(After(After(After(j1, Step(1, OpClaim(id, true))),
                              Step(1, OpRecord(id, id, Response(true, ReadsUnclear), 1, true))),
                        Step(1, OpAsk(id, true))), d)
  {
    hide *;
    assert d[|d| - 1] == id && |d| == |c| + 1;
    Answered(j1, d);
    var j4 := After(After(After(j1, Step(1, OpClaim(id, true))),
                          Step(1, OpRecord(id, id, Response(true, ReadsUnclear), 1, true))), Step(1, OpAsk(id, true)));
    GrownSized(j, j4, c);
    StageMade(j1, j4, d);
  }

  lemma StageSized(j: Journal, c: seq<string>)
    requires Stage(j, c)
    ensures c != [] && Sized(j, |c|)
  {
    hide Inv, Sized, IsChain, Ready, Setting;
  }

  /** Claim, record and ask, on an attempt nothing has happened to yet. */
  lemma Answered(j: Journal, d: seq<string>)
    requires Linked(j, d) && Untouched(j, d[|d| - 1]) && d[|d| - 1] !in j.claims && d[|d| - 1] !in j.records
    ensures var id := d[|d| - 1];
            var j' := After(After(After(j, Step(1, OpClaim(id, true))),
                                  Step(1, OpRecord(id, id, Response(true, ReadsUnclear), 1, true))),
                                    Step(1, OpAsk(id, true)));
            && Linked(j', d) && j'.attempts == j.attempts && j'.records == j.records[id := id] && j'.events == j.events
            && j'.results == j.results[id := [ResultRow(id, NeedsClarification, 1)]]
            && j'.questions == j.questions[id := [Question(id, 1, 901)]]
  {
    var id := d[|d| - 1];
    hide Inv, IsChain, After;
    ClaimNext(j, d);
    var j2 := After(j, Step(1, OpClaim(id, true)));
    StillLinked(j, d, Step(1, OpClaim(id, true)));
    RecordNext(j2, d, id);
    var record := Step(1, OpRecord(id, id, Response(true, ReadsUnclear), 1, true));
    var j3 := After(j2, record);
    StillLinked(j2, d, record);
    AskNext(j3, d, id);
    StillLinked(j3, d, Step(1, OpAsk(id, true)));
  }

  lemma StageMade(j: Journal, j': Journal, d: seq<string>)
    requires Linked(j, d) && Linked(j', d) && Sized(j', |d|) && Untouched(j, d[|d| - 1])
    requires var id := d[|d| - 1];
             j'.events == j.events && j'.questions == j.questions[id := [Question(id, 1, 901)]]
    ensures Stage(j', d)
  {
    hide Inv, IsChain, Sized;
  }

  lemma PreparedLink(j: Journal, c: seq<string>)
    requires Stage(j, c) && |c| < DEPTH_LIMIT
    ensures var id, j1 := Name(|c| + 1), After(j, Step(1, OpPrepare(NextRequest(c))));
            && j1.attempts == j.attempts[id := NextAttempt(c)] && j1.records == j.records && j1.results == j.results
            && j1.events == j.events && j1.questions == j.questions
            && Linked(j1, c + [id]) && Untouched(j1, id) && id !in j1.claims && id !in j1.records && id !in j.attempts
  {
    var id, s := Name(|c| + 1), Step(1, OpPrepare(NextRequest(c)));
    NameIsFree(j, c);
    NameUntouched(j, c);
    PreparedTables(j, c);
    assert Inv(j);
    hide *;
    StepKeeps(j, s);
    MadeLink(j, After(j, s), c, id);
  }

  lemma MadeLink(j: Journal, j1: Journal, c: seq<string>, id: string)
    requires Stage(j, c) && |c| < DEPTH_LIMIT && Inv(j1) && Setting(j1) && id == Name(|c| + 1)
    requires id !in j.attempts && id !in j.claims && id !in j.records && Untouched(j, id)
    requires j1.attempts == j.attempts[id := NextAttempt(c)] && j1.results == j.results && j1.events == j.events
    requires j1.questions == j.questions
    ensures Linked(j1, c + [id]) && Untouched(j1, id)
  {
    hide Inv, Name, Sized, IsChain, Ready, Setting;
    ChainExtends(j.attempts, id, NextAttempt(c), c);
    assert (c + [id])[|c|] == id;
  }

  lemma PreparedTables(j: Journal, c: seq<string>)
    requires Stage(j, c) && |c| < DEPTH_LIMIT
    ensures var id, j1 := Name(|c| + 1), After(j, Step(1, OpPrepare(NextRequest(c))));
            && j1.attempts == j.attempts[id := NextAttempt(c)] && j1.records == j.records && j1.results == j.results
            && j1.events == j.events && j1.questions == j.questions && j1.claims == j.claims && Setting(j1)
  {
    PrepareNext(j, c);
    hide Inv, After, Prepare, Name, Sized, IsChain, Ready, NextRequest, NextAttempt;
    PrepareIsStep(j, 1, NextRequest(c));
  }

  lemma NameUntouched(j: Journal, c: seq<string>)
    requires Stage(j, c) && Name(|c| + 1) !in j.attempts
    ensures Name(|c| + 1) !in j.claims && Untouched(j, Name(|c| + 1))
  {
    hide Name, IsChain, Ready, Setting, HasChain, AttemptSound, QuestionsSound, PublishedSound, Owned, ChildrenSound;
  }

  lemma GrownSized(j: Journal, j': Journal, c: seq<string>)
    requires Sized(j, |c|) && c != [] && Name(|c| + 1) !in j.attempts
    requires var id := Name(|c| + 1);
             && j'.attempts == j.attempts[id := NextAttempt(c)] && j'.records == j.records[id := id]
             && j'.results == j.results[id := [ResultRow(id, NeedsClarification, 1)]] && j'.events == j.events
             && j'.questions == j.questions[id := [Question(id, 1, 901)]]
    ensures Sized(j', |c| + 1)
  {
    hide Name;
    var id := Name(|c| + 1);
    forall x: string | x !in j'.attempts ensures Untouched(j', x) {
      assert x !in j.attempts && x != id;
      assert Untouched(j, x);
    }
  }

  lemma FourSteps(j: Journal, a: Step, b: Step, c: Step, d: Step)
    ensures Run(j, [a, b, c, d]) == After(After(After(After(j, a), b), c), d)
  {
    hide After;
    var s := [a, b, c, d];
    assert s[..3] == [a, b, c] && [a, b, c][..2] == [a, b] && [a, b][..1] == [a] && [a][..0] == [];
    assert Run(j, [a]) == After(j, a);
    assert Run(j, [a, b]) == After(Run(j, [a]), b);
    assert Run(j, [a, b, c]) == After(Run(j, [a, b]), c);
  }

  // ------------------------------------------------------------ the long run

  lemma FirstStage() returns (steps: seq<Step>)
    ensures Stage(Run(EMPTY, steps), [FIRST])
  {
    var ask := Step(1, OpAsk(FIRST, true));
    steps := OPENING + [ask];
    hide Run, Inv, After, Stage;
    OpeningRuns();
    RunsJoin(EMPTY, OPENING, [ask]);
    SingleStep(J4, ask);
    FirstAsks();
    Reached(steps);
    FirstReady();
  }

  const J5 := J4.(questions := map[FIRST := [Question("r", 1, 901)]])

  lemma FirstReady()
    requires Inv(J5)
    ensures Stage(J5, [FIRST])
  {
    hide Inv;
    assert Placed(J5.attempts, 0, [FIRST], 0);
    assert IsChain(J5.attempts, 0, [FIRST]);
    assert forall x: string | x !in J5.attempts :: Untouched(J5, x);
  }

  lemma FirstAsks()
    ensures After(J4, Step(1, OpAsk(FIRST, true))) == J5
  {
    assert AttemptVerifies(J4, FIRST, []);
    assert Rows(J4.questions, FIRST) + [Question("r", 1, 901)] == [Question("r", 1, 901)];
  }

  /** Chains of any length up to 128 are reachable. */
  lemma {:induction false} LongChain(n: nat) returns (steps: seq<Step>, c: seq<string>)
    requires 1 <= n <= DEPTH_LIMIT
    ensures |c| == n && Stage(Run(EMPTY, steps), c)
  {
    hide Stage, Run;
    if n == 1 {
      steps := FirstStage();
      c := [FIRST];
    } else {
      var front, before := LongChain(n - 1);
      var more := OneMoreLink(Run(EMPTY, front), before);
      steps := front + more;
      c := before + [Name(|before| + 1)];
      RunsJoin(EMPTY, front, more);
    }
  }

  /** A run after which a follow-up is prepared that no later state can verify. */
  lemma FollowUpIsLost() returns (steps: seq<Step>, q: Request)
    ensures var j := Run(EMPTY, steps);
            && q.id !in j.attempts && Prepare(j, 1, q).Some? && q.id in Prepare(j, 1, q).value.attempts
            && forall more: seq<Step> :: !AttemptVerifies(Run(j, [Step(1, OpPrepare(q))] + more), q.id, [])
  {
    var c;
    steps, c := LongChain(DEPTH_LIMIT);
    var j := Run(EMPTY, steps);
    q := NextRequest(c);
    PrepareNext(j, c);
    NameIsFree(j, c);
    hide Run, Inv, Prepare, After;
    forall more: seq<Step> ensures !AttemptVerifies(Run(j, [Step(1, OpPrepare(q))] + more), q.id, []) {
      FollowUpBeyondDepth(steps, 1, q, more, 0, c);
    }
  }
}
