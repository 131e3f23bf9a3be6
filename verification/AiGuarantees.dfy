/** What the invocation protocol promises, over every run, crashes included. */
module AiGuarantees {
  import opened Prelude
  import opened AiJournal
  import opened AiRuns
  import opened AiChains

  lemma Reached(steps: seq<Step>)
    ensures Inv(Run(EMPTY, steps))
  {
    hide Inv, Run;
    EmptyGood();
    RunKeeps(EMPTY, steps);
  }

  lemma {:induction false} RunsJoin(j: Journal, a: seq<Step>, b: seq<Step>)
    ensures Run(j, a + b) == Run(Run(j, a), b)
    decreases |b|
  {
    hide After;
    if b == [] {
      assert a + b == a;
    } else {
      var front := b[..|b| - 1];
      RunsJoin(j, a, front);
      assert (a + b)[..|a + b| - 1] == a + front;
    }
  }

  // ----------------------------------------------------- chain, publication

  /** A followed attempt has a question, so its first result asked for clarification. */
  lemma FollowedIsUnclear(j: Journal, id: string)
    requires Inv(j) && HasSuccessor(j.attempts, id)
    ensures Rows(j.results, id) != [] && Rows(j.results, id)[0].verdict == NeedsClarification
    ensures id !in j.publications
  {
    hide HasChain, DispatchSound, Owned, ChildrenSound;
    var s :| s in j.attempts && j.attempts[s].kind.FollowUp? && j.attempts[s].kind.of == id;
    assert AttemptSound(j, s);
    assert QuestionsSound(j, id);
    assert id in j.publications ==> PublishedSound(j, id);
  }

  /** The attempts on one parent are a single chain of follow-ups, and only its last can be published. */
  lemma OneChainPerParent(steps: seq<Step>, parent: nat) returns (c: seq<string>)
    ensures var j := Run(EMPTY, steps);
            && IsChain(j.attempts, parent, c)
            && forall i | 0 <= i < |c| && c[i] in j.publications :: i == |c| - 1
  {
    hide Run, AttemptSound, QuestionsSound, PublishedSound, DispatchSound, Owned, ChildrenSound;
    Reached(steps);
    var j := Run(EMPTY, steps);
    assert HasChain(j.attempts, parent);
    c :| IsChain(j.attempts, parent, c);
    forall i | 0 <= i < |c| && c[i] in j.publications ensures i == |c| - 1 {
      if i + 1 < |c| {
        assert Placed(j.attempts, parent, c, i + 1);
        assert HasSuccessor(j.attempts, c[i]);
        FollowedIsUnclear(j, c[i]);
      }
    }
  }

  /** Once followed, an attempt is never published, whatever happens next. */
  lemma FollowedNeverPublishes(steps: seq<Step>, more: seq<Step>, id: string)
    requires HasSuccessor(Run(EMPTY, steps).attempts, id)
    ensures id !in Run(Run(EMPTY, steps), more).publications
  {
    hide Run, Inv;
    var j := Run(EMPTY, steps);
    Reached(steps);
    RunKeeps(j, more);
    FollowedIsUnclear(Run(j, more), id);
  }

  /** Two published attempts differ in their parent and in their child. */
  lemma OnePublicationPerParent(steps: seq<Step>, a: string, b: string)
    requires a in Run(EMPTY, steps).publications && b in Run(EMPTY, steps).publications && a != b
    ensures var j := Run(EMPTY, steps);
            && a in j.attempts && b in j.attempts
            && j.attempts[a].parent != j.attempts[b].parent && j.publications[a].child != j.publications[b].child
  {
    hide Run, AttemptSound, QuestionsSound, DispatchSound, Owned, HasChain;
    var j := Run(EMPTY, steps);
    Reached(steps);
    assert PublishedSound(j, a) && PublishedSound(j, b);
    hide PublishedSound;
    var c := OneChainPerParent(steps, j.attempts[a].parent);
    LastPublished(j, c, a);
    LastPublished(j, c, b);
  }

  lemma LastPublished(j: Journal, c: seq<string>, id: string)
    requires id in j.publications && forall i | 0 <= i < |c| && c[i] in j.publications :: i == |c| - 1
    ensures id in c ==> |c| > 0 && c[|c| - 1] == id
  {
  }

  lemma EventBarsStep(j: Journal, s: Step, id: string)
    requires Inv(j) && Rows(j.events, id) != [] && id !in j.publications
    ensures Rows(After(j, s).events, id) != [] && id !in After(j, s).publications
  {
    hide After, Effected, HasChain, AttemptSound, QuestionsSound, PublishedSound, DispatchSound, ChildrenSound,
      AttemptGuard, QuestionGuard;
    StepKeeps(j, s);
    assert Rows(j.events, id) <= Rows(After(j, s).events, id);
    var e := StepEffect(j, s);
    EffectTables(j, e);
  }

  /** An unpublished attempt with a cancel or uncertainty event is never published. */
  lemma {:induction false} EventBarsPublication(j: Journal, more: seq<Step>, id: string)
    requires Inv(j) && Rows(j.events, id) != [] && id !in j.publications
    ensures Rows(Run(j, more).events, id) != [] && id !in Run(j, more).publications
  {
    hide Inv, After;
    if more != [] {
      var front := more[..|more| - 1];
      EventBarsPublication(j, front, id);
      RunKeeps(j, front);
      EventBarsStep(Run(j, front), more[|more| - 1], id);
    }
  }

  // ----------------------------------------------------------- dispatching

  /** Over every run, crashes included, an attempt reaches the provider at most once, and only claimed. */
  lemma DispatchedAtMostOnce(steps: seq<Step>, id: string)
    ensures multiset(Run(EMPTY, steps).sent)[id] <= 1
    ensures id in Run(EMPTY, steps).sent ==> id in Run(EMPTY, steps).claims && id !in Run(EMPTY, steps).holding
  {
    hide Run, HasChain, AttemptSound, QuestionsSound, PublishedSound, Owned, ChildrenSound;
    Reached(steps);
    var sent := Run(EMPTY, steps).sent;
    if id in sent {
      var i :| 0 <= i < |sent| && sent[i] == id;
      assert sent == sent[..i] + [id] + sent[i + 1..];
      assert id !in sent[..i] && id !in sent[i + 1..];
    }
  }

  // ---------------------------------------------------------- verification

  /** On any journal at all: an ancestry from `p[0]` to an attempt that follows nothing. */
  ghost predicate Ancestry(j: Journal, p: seq<string>) {
    && p != []
    && (forall i | 0 <= i < |p| :: p[i] in j.attempts)
    && (forall i | 0 <= i < |p| - 1 :: Follows(j, p[i], p[i + 1]))
    && !j.attempts[p[|p| - 1]].kind.FollowUp?
  }

  ghost predicate Follows(j: Journal, id: string, of: string) {
    && Predecessor(j.attempts, id) == Some(of)
    && GenerationsVerify(j, of) && j.attempts[id].kind.generation < |Rows(j.questions, of)|
  }

  ghost predicate Simple(p: seq<string>, stack: seq<string>) {
    (forall i, k | 0 <= i < k < |p| :: p[i] != p[k]) && (forall i | 0 <= i < |p| :: p[i] !in stack)
  }

  /** Verification accepts only a finite ancestry without repetition, within the limit. */
  lemma {:induction false} VerifiedAncestry(j: Journal, id: string, stack: seq<string>) returns (p: seq<string>)
    requires AttemptVerifies(j, id, stack)
    ensures Ancestry(j, p) && p[0] == id && Simple(p, stack) && |stack| + |p| <= DEPTH_LIMIT
    decreases DEPTH_LIMIT - |stack|
  {
    hide GenerationsVerify;
    if !j.attempts[id].kind.FollowUp? { return [id]; }
    hide Ancestry, Simple;
    var q := VerifiedAncestry(j, j.attempts[id].kind.of, stack + [id]);
    assert Follows(j, id, q[0]);
    p := [id] + q;
    AncestryExtends(j, id, q);
    SimpleExtends(id, q, stack);
  }

  lemma AncestryExtends(j: Journal, id: string, q: seq<string>)
    requires Ancestry(j, q) && id in j.attempts && Follows(j, id, q[0])
    ensures Ancestry(j, [id] + q)
  {
    hide Follows;
    var p := [id] + q;
    Shifted(id, q);
    assert p[|p| - 1] == q[|q| - 1];
    forall i | 0 <= i < |p| ensures p[i] in j.attempts {
      if i > 0 { assert p[i] == q[i - 1]; }
    }
    forall i | 0 <= i < |p| - 1 ensures Follows(j, p[i], p[i + 1]) {
      FollowsAt(j, id, q, i);
    }
    hide AttemptVerifies;
  }

  lemma Shifted(id: string, q: seq<string>)
    ensures var p := [id] + q; |p| == |q| + 1 && p[0] == id && forall i | 0 <= i < |q| :: p[i + 1] == q[i]
  {
  }

  lemma FollowsAt(j: Journal, id: string, q: seq<string>, i: nat)
    requires q != [] && i < |q| && Follows(j, id, q[0]) && forall k | 0 <= k < |q| - 1 :: Follows(j, q[k], q[k + 1])
    ensures Follows(j, ([id] + q)[i], ([id] + q)[i + 1])
  {
    hide Follows;
    Shifted(id, q);
    if i > 0 { assert ([id] + q)[i] == q[i - 1]; }
  }

  lemma SimpleExtends(id: string, q: seq<string>, stack: seq<string>)
    requires id !in stack && Simple(q, stack + [id])
    ensures Simple([id] + q, stack)
  {
    var p := [id] + q;
    assert forall i | 0 <= i < |q| :: p[i + 1] == q[i] && q[i] !in stack + [id];
    assert id in stack + [id];
    assert forall x | x in stack :: x in stack + [id];
  }

  /** and every such ancestry. */
  lemma {:induction false} AncestryVerifies(j: Journal, p: seq<string>, stack: seq<string>)
    requires Ancestry(j, p) && Simple(p, stack) && |stack| + |p| <= DEPTH_LIMIT
    ensures AttemptVerifies(j, p[0], stack)
    decreases |p|
  {
    hide GenerationsVerify;
    if |p| > 1 {
      var q := p[1..];
      assert Follows(j, p[0], p[1]);
      forall i | 0 <= i < |q| - 1 ensures Follows(j, q[i], q[i + 1]) { assert Follows(j, p[i + 1], p[i + 2]); }
      AncestryVerifies(j, q, stack + [p[0]]);
    }
  }

  /** In a reachable journal an attempt's questions pass exactly while there are at most 128. */
  lemma GenerationsHold(j: Journal, id: string)
    requires Inv(j) && Rows(j.questions, id) != []
    ensures GenerationsVerify(j, id) <==> |Rows(j.questions, id)| <= DEPTH_LIMIT
  {
    hide HasChain, PublishedSound, DispatchSound, Owned, ChildrenSound;
    assert QuestionsSound(j, id);
    var qs, rs := Rows(j.questions, id), Rows(j.results, id);
    assert forall s | s in j.attempts :: AttemptSound(j, s);
    forall i | 0 < i < |qs| ensures Refreshes(j, id, qs, i) {
      assert qs[i - 1].expires <= qs[i].created;
    }
    assert rs[0] in rs;
  }

  lemma {:induction false} ChainVerifies(j: Journal, parent: nat, c: seq<string>, k: nat, stack: seq<string>)
    requires Inv(j) && IsChain(j.attempts, parent, c) && k < |c|
    requires forall i | 0 <= i <= k :: c[i] !in stack
    ensures AttemptVerifies(j, c[k], stack) <==> |stack| + k + 1 <= DEPTH_LIMIT
    decreases k
  {
    hide HasChain, PublishedSound, DispatchSound, Owned, ChildrenSound, QuestionsSound, GenerationsVerify;
    assert Placed(j.attempts, parent, c, k);
    if k > 0 && |stack| < DEPTH_LIMIT {
      assert AttemptSound(j, c[k]);
      ChainVerifies(j, parent, c, k - 1, stack + [c[k]]);
      GenerationsHold(j, c[k - 1]);
    }
  }

  /** In every reachable journal, an attempt verifies exactly when it has fewer than 128 ancestors. */
  lemma VerifiesWithinDepth(steps: seq<Step>, parent: nat, c: seq<string>, k: nat)
    requires IsChain(Run(EMPTY, steps).attempts, parent, c) && k < |c|
    ensures AttemptVerifies(Run(EMPTY, steps), c[k], []) <==> k < DEPTH_LIMIT
  {
    hide Run, Inv, IsChain;
    Reached(steps);
    ChainVerifies(Run(EMPTY, steps), parent, c, k, []);
  }

  /** The chain of a parent only grows at its end. */
  lemma ChainsAgree(a: map<string, Attempt>, parent: nat, c: seq<string>, b: map<string, Attempt>, d: seq<string>,
                    k: nat)
    requires Keeps(a, b) && IsChain(a, parent, c) && IsChain(b, parent, d) && k < |c|
    ensures k < |d| && d[k] == c[k]
    decreases k
  {
    assert Placed(a, parent, c, k);
    assert b[c[k]] == a[c[k]];
    assert c[k] in d;
    var i :| 0 <= i < |d| && d[i] == c[k];
    assert Placed(b, parent, d, i);
    if k > 0 {
      ChainsAgree(a, parent, c, b, d, k - 1);
      assert d[i - 1] == c[k - 1] == d[k - 1];
    }
  }

  /** Publishing demands verification, so every published attempt verifies. */
  lemma {:induction false} PublishedVerifies(steps: seq<Step>, id: string)
    requires id in Run(EMPTY, steps).publications
    ensures AttemptVerifies(Run(EMPTY, steps), id, [])
  {
    var front, last := steps[..|steps| - 1], steps[|steps| - 1];
    var j := Run(EMPTY, front);
    hide Inv, After, Effected, AttemptVerifies, AttemptGuard, QuestionGuard;
    Reached(front);
    var e := StepEffect(j, last);
    EffectTables(j, e);
    if id in j.publications { PublishedVerifies(front, id); }
    StepKeeps(j, last);
    VerifiesForever(j, After(j, last), id);
  }

  lemma LostStep(j: Journal, s: Step, intake: string, p: Publication)
    requires p.child in j.proposals && !IsLeaf(j, intake, p)
    ensures p.child in After(j, s).proposals && !IsLeaf(After(j, s), intake, p)
  {
    hide After, Effected, AttemptGuard, QuestionGuard, PublicationGuard, AttemptVerifies, AddEvent, Apply, IsLeaf;
    var e := StepEffect(j, s);
    match e
    case AddPublication(id, q) => LostByPublication(j, id, q, intake, p);
    case MoveProposals(c) => LostByChange(j, c, intake, p);
    case _ =>
      EffectTables(j, e);
      LostSame(j, Effected(j, e), intake, p);
  }

  lemma LostSame(j: Journal, j': Journal, intake: string, p: Publication)
    requires p.child in j.proposals && !IsLeaf(j, intake, p) && j'.proposals == j.proposals && j'.targets == j.targets
    ensures p.child in j'.proposals && !IsLeaf(j', intake, p)
  {
  }

  lemma LostByPublication(j: Journal, id: string, q: Publication, intake: string, p: Publication)
    requires PublicationGuard(j, id, q) && p.child in j.proposals && !IsLeaf(j, intake, p)
    ensures var j' := Effected(j, AddPublication(id, q));
            p.child in j'.proposals && !IsLeaf(j', intake, p)
  {
    hide AttemptVerifies, Apply, AddEvent;
  }

  lemma LostByChange(j: Journal, c: Change, intake: string, p: Publication)
    requires p.child in j.proposals && !IsLeaf(j, intake, p)
    ensures var j' := Effected(j, MoveProposals(c));
            p.child in j'.proposals && !IsLeaf(j', intake, p)
  {
    hide AddEvent;
  }

  /** A child that was replaced or revised is never current again. */
  lemma {:induction false} LostForever(j: Journal, more: seq<Step>, intake: string, p: Publication)
    requires p.child in j.proposals && !IsLeaf(j, intake, p)
    ensures p.child in Run(j, more).proposals && !IsLeaf(Run(j, more), intake, p)
  {
    hide After, IsLeaf;
    if more != [] {
      LostForever(j, more[..|more| - 1], intake, p);
      LostStep(Run(j, more[..|more| - 1]), more[|more| - 1], intake, p);
    }
  }

  /** Publishing leaves its child current. */
  lemma PublishedIsCurrent(j: Journal, now: int, id: string, child: nat, hash: string, allowed: bool)
    requires id !in j.publications && Publish(j, now, id, child, hash, allowed).Some?
    ensures var j' := Publish(j, now, id, child, hash, allowed).value;
            id in j'.attempts && StatusOf(j', id) == Published(Publication(child, hash), true)
  {
    hide AttemptVerifies;
    VerifiedExists(j, id);
  }

  /** At most one published attempt of an intake is current. */
  lemma OneCurrentPublication(steps: seq<Step>, a: string, b: string)
    requires a in Run(EMPTY, steps).publications && b in Run(EMPTY, steps).publications && a != b
    ensures var j := Run(EMPTY, steps);
            && a in j.attempts && b in j.attempts
            && (j.attempts[a].intake == j.attempts[b].intake ==>
                  !(StatusOf(j, a).isCurrent && StatusOf(j, b).isCurrent))
  {
    hide Run;
    OnePublicationPerParent(steps, a, b);
  }

  /** Verification and publication last: a published attempt verifies and keeps its status and its
      child for ever; the child is current or not, and once it is not it never is again. */
  lemma PublishedForever(steps: seq<Step>, more: seq<Step>, id: string)
    requires id in Run(EMPTY, steps).publications
    ensures id in Run(EMPTY, steps).attempts && id in Run(Run(EMPTY, steps), more).attempts
    ensures var j, j' := Run(EMPTY, steps), Run(Run(EMPTY, steps), more);
            && AttemptVerifies(j', id, [])
            && StatusOf(j, id).Published? && StatusOf(j', id).Published?
            && StatusOf(j', id).publication == StatusOf(j, id).publication == j.publications[id]
            && (StatusOf(j', id).isCurrent ==> StatusOf(j, id).isCurrent)
  {
    hide Run;
    var j, j' := Run(EMPTY, steps), Run(Run(EMPTY, steps), more);
    Reached(steps);
    PublishedVerifies(steps, id);
    RunKeeps(j, more);
    VerifiesForever(j, j', id);
    VerifiedExists(j', id);
    assert PublishedSound(j, id);
    if !StatusOf(j, id).isCurrent { LostForever(j, more, j.attempts[id].intake, j.publications[id]); }
  }

  lemma VerifiesForever(j: Journal, j': Journal, id: string)
    requires Inv(j) && Inv(j') && Grows(j, j') && AttemptVerifies(j, id, [])
    ensures id in j.attempts && AttemptVerifies(j', id, [])
  {
    hide AttemptSound, PublishedSound, DispatchSound, Owned, ChildrenSound, QuestionsSound, IsChain, AttemptVerifies;
    VerifiedExists(j, id);
    var parent := j.attempts[id].parent;
    assert HasChain(j.attempts, parent) && HasChain(j'.attempts, parent);
    var c :| IsChain(j.attempts, parent, c);
    var d :| IsChain(j'.attempts, parent, d);
    InChain(j.attempts, parent, c, id);
    var k :| 0 <= k < |c| && c[k] == id;
    ChainsAgree(j.attempts, parent, c, j'.attempts, d, k);
    ChainVerifies(j, parent, c, k, []);
    ChainVerifies(j', parent, d, k, []);
  }

  lemma InChain(attempts: map<string, Attempt>, parent: nat, c: seq<string>, id: string)
    requires IsChain(attempts, parent, c) && id in attempts && attempts[id].parent == parent
    ensures id in c
  {
  }

  // ------------------------------------------------------------- questions

  /** Generations count from 0 without a gap, their windows do not overlap, only the last can be
      open or consumed, and it is consumed by one follow-up at most. */
  lemma QuestionGenerations(steps: seq<Step>, id: string)
    ensures var j := Run(EMPTY, steps);
            var qs := Rows(j.questions, id);
            && (forall i | 0 <= i < |qs| :: qs[i].expires == qs[i].created + QUESTION_SECONDS)
            && (forall i, k | 0 <= i < k < |qs| :: qs[i].expires <= qs[k].created)
            && (forall g: nat | Consumed(j.attempts, id, g) :: g == |qs| - 1)
            && (forall s, t | s in j.attempts && t in j.attempts
                               && Predecessor(j.attempts, s) == Predecessor(j.attempts, t) == Some(id) :: s == t)
  {
    hide Run;
    Reached(steps);
    var j := Run(EMPTY, steps);
    hide HasChain, PublishedSound, DispatchSound, Owned, ChildrenSound;
    assert QuestionsSound(j, id);
    assert forall s | s in j.attempts :: AttemptSound(j, s);
    forall s, t | s in j.attempts && t in j.attempts
                  && Predecessor(j.attempts, s) == Predecessor(j.attempts, t) == Some(id)
      ensures s == t {
      OneSuccessor(j, id, s, t);
    }
  }

  lemma OneSuccessor(j: Journal, id: string, s: string, t: string)
    requires Inv(j) && s in j.attempts && t in j.attempts
    requires Predecessor(j.attempts, s) == Predecessor(j.attempts, t) == Some(id)
    ensures s == t
  {
    hide PublishedSound, DispatchSound, Owned, ChildrenSound, QuestionsSound, AttemptSound;
    var c := SuccessorPlace(j, s, id);
    var other := SuccessorPlace(j, t, id);
    var k :| 0 < k < |c| && c[k] == s && c[k - 1] == id;
    var m :| 0 < m < |other| && other[m] == t && other[m - 1] == id;
    var parent := j.attempts[id].parent;
    ChainsAgree(j.attempts, parent, c, j.attempts, other, k);
    ChainsAgree(j.attempts, parent, c, j.attempts, other, k - 1);
  }

  /** A follow-up stands right after what it follows, in that one's chain. */
  lemma SuccessorPlace(j: Journal, s: string, id: string) returns (c: seq<string>)
    requires Inv(j) && s in j.attempts && Predecessor(j.attempts, s) == Some(id)
    ensures id in j.attempts && IsChain(j.attempts, j.attempts[id].parent, c)
    ensures exists k :: 0 < k < |c| && c[k] == s && c[k - 1] == id
  {
    hide PublishedSound, DispatchSound, Owned, ChildrenSound, QuestionsSound;
    assert AttemptSound(j, s);
    var parent := j.attempts[s].parent;
    assert HasChain(j.attempts, parent);
    c :| IsChain(j.attempts, parent, c);
    assert s in c;
    var k :| 0 <= k < |c| && c[k] == s;
    assert Placed(j.attempts, parent, c, k);
    assert Placed(j.attempts, parent, c, k - 1);
  }

  predicate WithinWindow(q: Question, now: int) { q.created <= now < q.expires }

  /** In every reachable journal, at any clock value, at most one question of an attempt is within
      its window, and only the last can be open. */
  lemma AtMostOneOpen(steps: seq<Step>, id: string, now: int)
    ensures var j := Run(EMPTY, steps);
            var qs := Rows(j.questions, id);
            && (forall g, h | 0 <= g < |qs| && 0 <= h < |qs| && WithinWindow(qs[g], now) && WithinWindow(qs[h], now) ::
                 g == h)
            && (forall g: nat | id in j.attempts && g < |qs| && QuestionStateOf(j, id, g, now) == QOpen ::
                 g == |qs| - 1)
  {
    hide Run;
    QuestionGenerations(steps, id);
    hide Consumed, Predecessor;
  }

  /** With more than 128 questions, none of an attempt's questions passes, now or after any run. */
  lemma TooManyForever(j: Journal, more: seq<Step>, id: string, g: nat)
    requires Inv(j) && |Rows(j.questions, id)| > DEPTH_LIMIT
    ensures !QuestionVerifies(Run(j, more), id, g, [])
  {
    hide Inv, Run, AttemptVerifies;
    RunKeeps(j, more);
    assert Rows(j.questions, id) <= Rows(Run(j, more).questions, id);
  }

  /** A question just written passes verification exactly when fewer than 128 came before it; the
      129th is written and from then on, after any run, no question of the attempt passes. */
  lemma WrittenQuestionVerifies(steps: seq<Step>, now: int, id: string, allowed: bool)
    requires Ask(Run(EMPTY, steps), now, id, allowed).Some?
    requires Ask(Run(EMPTY, steps), now, id, allowed).value.questions != Run(EMPTY, steps).questions
    ensures var j, j' := Run(EMPTY, steps), Ask(Run(EMPTY, steps), now, id, allowed).value;
            var n := |Rows(j.questions, id)|;
            && n <= DEPTH_LIMIT && |Rows(j'.questions, id)| == n + 1
            && (n < DEPTH_LIMIT ==> forall g | 0 <= g <= n :: QuestionVerifies(j', id, g, []))
            && (n == DEPTH_LIMIT ==> forall more: seq<Step>, g: nat :: !QuestionVerifies(Run(j', more), id, g, []))
  {
    hide Run, Inv;
    Reached(steps);
    AskWrites(Run(EMPTY, steps), now, id, allowed);
  }

  lemma AskWrites(j: Journal, now: int, id: string, allowed: bool)
    requires Inv(j) && Ask(j, now, id, allowed).Some? && Ask(j, now, id, allowed).value.questions != j.questions
    ensures var j' := Ask(j, now, id, allowed).value;
            var n := |Rows(j.questions, id)|;
            && n <= DEPTH_LIMIT && |Rows(j'.questions, id)| == n + 1
            && (n < DEPTH_LIMIT ==> forall g | 0 <= g <= n :: QuestionVerifies(j', id, g, []))
            && (n == DEPTH_LIMIT ==> forall more: seq<Step>, g: nat :: !QuestionVerifies(Run(j', more), id, g, []))
  {
    var j' := Ask(j, now, id, allowed).value;
    assert AttemptVerifies(j, id, []);
    hide Inv, After, Ask, AttemptVerifies, GenerationsVerify, Current, Grows, Usable;
    var s := Step(now, OpAsk(id, allowed));
    AskIsStep(j, now, id, allowed);
    StepKeeps(j, s);
    AskAppends(j, now, id, allowed);
    VerifiesForever(j, j', id);
    GenerationsHold(j', id);
    hide QuestionVerifies;
    if |Rows(j.questions, id)| == DEPTH_LIMIT {
      forall more: seq<Step>, g: nat ensures !QuestionVerifies(Run(j', more), id, g, []) {
        TooManyForever(j', more, id, g);
      }
    }
  }

  lemma AskAppends(j: Journal, now: int, id: string, allowed: bool)
    requires Ask(j, now, id, allowed).Some? && Ask(j, now, id, allowed).value.questions != j.questions
    ensures |Rows(j.questions, id)| <= DEPTH_LIMIT
    ensures |Rows(Ask(j, now, id, allowed).value.questions, id)| == |Rows(j.questions, id)| + 1
  {
    hide AttemptVerifies, Current, StatusOf, GenerationsVerify;
    if Rows(j.questions, id) != [] { CountedGenerations(j, id); }
  }

  lemma AskIsStep(j: Journal, now: int, id: string, allowed: bool)
    requires Ask(j, now, id, allowed).Some?
    ensures After(j, Step(now, OpAsk(id, allowed))) == Ask(j, now, id, allowed).value
  {
    hide Ask;
  }
}
