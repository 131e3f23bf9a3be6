/** The shape of the journal over every run: one follow-up chain per parent, one dispatch per
    attempt, one publication per parent. */
module AiChains {
  import opened Prelude
  import opened AiJournal
  import opened AiRuns

  // ---------------------------------------------------------------- growth

  /** Evidence is only ever added, and a proposal that stopped pending stays so. */
  ghost predicate Grows(j: Journal, j': Journal) {
    && Keeps(j.attempts, j'.attempts) && Keeps(j.claims, j'.claims) && Keeps(j.publications, j'.publications)
    && KeepsRows(j.questions, j'.questions) && KeepsRows(j.results, j'.results) && KeepsRows(j.events, j'.events)
    && j.sent <= j'.sent && ProposalsKept(j, j')
  }

  lemma RowsGrow(j: Journal, e: Effect)
    requires Guarded(j, e)
    ensures var j' := Effected(j, e);
            KeepsRows(j.questions, j'.questions) && KeepsRows(j.results, j'.results) && KeepsRows(j.events, j'.events)
  {
    EffectTables(j, e);
    hide Effected, AttemptGuard, PublicationGuard, QuestionGuard, KeepsRows;
    SameKeepsRows(j.questions);
    SameKeepsRows(j.results);
    SameKeepsRows(j.events);
    match e
    case AddQuestion(id, q) => AppendKeepsRows(j.questions, id, Rows(j.questions, id) + [q]);
    case AddResult(id, row) => AppendKeepsRows(j.results, id, Rows(j.results, id) + [row]);
    case AddEvents(id, list) => AppendKeepsRows(j.events, id, list);
    case Drop(id, late) => DropEvents(j, id, late);
    case _ =>
  }

  lemma DropEvents(j: Journal, id: string, late: bool)
    ensures KeepsRows(j.events, Effected(j, Drop(id, late)).events)
  {
    hide KeepsRows, AddEvent;
    SameKeepsRows(j.events);
    EventTables(j.(holding := j.holding - {id}), id);
  }

  lemma ProposalsGrow(j: Journal, e: Effect)
    requires Guarded(j, e) && Owned(j)
    ensures Owned(Effected(j, e)) && ProposalsKept(j, Effected(j, e))
  {
    hide Apply, AddEvent, Target;
    match e
    case MoveProposals(c) => if Apply(j, c).Some? { ChangeMoves(j, c); }
    case AddPublication(id, p) =>
      PublicationMoves(j, id, p);
    case _ => EffectTables(j, e);
  }

  lemma ChangeMoves(j: Journal, c: Change)
    requires Apply(j, c).Some? && Owned(j)
    ensures Owned(Apply(j, c).value) && ProposalsKept(j, Apply(j, c).value)
  {
  }

  lemma PublicationMoves(j: Journal, id: string, p: Publication)
    requires PublicationGuard(j, id, p) && Owned(j)
    ensures Owned(Effected(j, AddPublication(id, p))) && ProposalsKept(j, Effected(j, AddPublication(id, p)))
  {
    hide Apply, AddEvent;
  }

  ghost predicate ProposalsKept(j: Journal, j': Journal) {
    forall p | p in j.proposals ::
      p in j'.proposals && j'.proposals[p].intake == j.proposals[p].intake
      && (j'.proposals[p].pending ==> j.proposals[p].pending)
  }

  /** Each intake's target is one of its own proposals. */
  ghost predicate Owned(j: Journal) {
    forall i | i in j.targets :: j.targets[i] in j.proposals && j.proposals[j.targets[i]].intake == i
  }

  lemma EffectGrows(j: Journal, e: Effect)
    requires Guarded(j, e) && Owned(j)
    ensures Grows(j, Effected(j, e)) && Owned(Effected(j, e))
  {
    RowsGrow(j, e);
    ProposalsGrow(j, e);
    EffectTables(j, e);
    hide Effected, AttemptGuard, QuestionGuard, KeepsRows, Owned;
  }

  // --------------------------------------------------------------- chains

  /** Position `i` of a chain of attempts on `parent`. */
  ghost predicate Placed(attempts: map<string, Attempt>, parent: nat, c: seq<string>, i: nat)
    requires i < |c|
  {
    && c[i] in attempts && attempts[c[i]].parent == parent
    && Predecessor(attempts, c[i]) == (if i == 0 then None else Some(c[i - 1]))
  }

  /** `c` lists every attempt on `parent`, each the follow-up of the one before it. */
  ghost predicate IsChain(attempts: map<string, Attempt>, parent: nat, c: seq<string>) {
    && (forall i | 0 <= i < |c| :: Placed(attempts, parent, c, i))
    && (forall i, k | 0 <= i < k < |c| :: c[i] != c[k])
    && (forall id | id in attempts && attempts[id].parent == parent :: id in c)
  }

  ghost predicate HasChain(attempts: map<string, Attempt>, parent: nat) {
    exists c :: IsChain(attempts, parent, c)
  }

  /** A walk that starts at position `k` of a chain sees only the positions up to `k`. */
  lemma {:induction false} WalkStaysBelow(attempts: map<string, Attempt>, parent: nat, c: seq<string>, k: nat,
                                          seen: set<string>)
    requires IsChain(attempts, parent, c) && k < |c|
    requires Permitted(attempts, Some(c[k]), seen).Some?
    ensures forall x | x in Permitted(attempts, Some(c[k]), seen).value :: x in seen || x in c[..k + 1]
    decreases k
  {
    assert Placed(attempts, parent, c, k);
    assert c[..k + 1] == c[..k] + [c[k]];
    if k > 0 {
      WalkStaysBelow(attempts, parent, c, k - 1, seen + {c[k]});
    }
  }

  /** So a follow-up whose walk covers the whole chain follows the chain's last attempt. */
  lemma FollowsLast(attempts: map<string, Attempt>, parent: nat, c: seq<string>, of: string)
    requires IsChain(attempts, parent, c) && of in c
    requires Permitted(attempts, Some(of), {}).Some?
    requires forall x | x in c :: x in Permitted(attempts, Some(of), {}).value
    ensures of == c[|c| - 1]
  {
    var k :| 0 <= k < |c| && c[k] == of;
    WalkStaysBelow(attempts, parent, c, k, {});
    assert c[|c| - 1] in c;
    assert c[|c| - 1] in c[..k + 1];
  }

  lemma ChainExtends(attempts: map<string, Attempt>, id: string, a: Attempt, c: seq<string>)
    requires IsChain(attempts, a.parent, c) && id !in attempts
    requires if a.kind.FollowUp? then c != [] && a.kind.of == c[|c| - 1] else c == []
    ensures IsChain(attempts[id := a], a.parent, c + [id])
  {
    hide Placed;
    var grown, d := attempts[id := a], c + [id];
    forall i | 0 <= i < |c| ensures Placed(grown, a.parent, d, i) && c[i] != id {
      PlacedKept(attempts, id, a, a.parent, c, i);
    }
    PlacedLast(attempts, id, a, c);
    ListExtends(attempts, id, a, c);
  }

  lemma PlacedLast(attempts: map<string, Attempt>, id: string, a: Attempt, c: seq<string>)
    requires if a.kind.FollowUp? then c != [] && a.kind.of == c[|c| - 1] else c == []
    ensures Placed(attempts[id := a], a.parent, c + [id], |c|)
  {
  }

  lemma ListExtends(attempts: map<string, Attempt>, id: string, a: Attempt, c: seq<string>)
    requires forall i | 0 <= i < |c| :: c[i] != id
    requires forall i, k | 0 <= i < k < |c| :: c[i] != c[k]
    requires forall x | x in attempts && attempts[x].parent == a.parent :: x in c
    ensures var grown, d := attempts[id := a], c + [id];
            && (forall i, k | 0 <= i < k < |d| :: d[i] != d[k])
            && (forall x | x in grown && grown[x].parent == a.parent :: x in d)
  {
    var grown, d := attempts[id := a], c + [id];
    forall x | x in grown && grown[x].parent == a.parent ensures x in d {
      if x != id { assert x in c; } else { assert d[|c|] == id; }
    }
  }

  lemma PlacedKept(attempts: map<string, Attempt>, id: string, a: Attempt, parent: nat, c: seq<string>, i: nat)
    requires i < |c| && Placed(attempts, parent, c, i) && id !in attempts
    ensures c[i] != id && Placed(attempts[id := a], parent, c, i) && Placed(attempts[id := a], parent, c + [id], i)
  {
  }

  lemma ChainUntouched(attempts: map<string, Attempt>, id: string, a: Attempt, parent: nat, c: seq<string>)
    requires IsChain(attempts, parent, c) && id !in attempts && a.parent != parent
    ensures IsChain(attempts[id := a], parent, c)
  {
    var grown := attempts[id := a];
    forall i | 0 <= i < |c| ensures Placed(grown, parent, c, i) {
      PlacedKept(attempts, id, a, parent, c, i);
    }
  }

  // ------------------------------------------------------------- invariant

  ghost predicate PublishedSound(j: Journal, id: string)
  {
    && id in j.publications && id in j.attempts
    && j.attempts[id].parent in j.proposals && !j.proposals[j.attempts[id].parent].pending
    && j.publications[id].child in j.proposals
    && Rows(j.results, id) != [] && Rows(j.results, id)[0].verdict == Valid
  }

  ghost predicate AttemptSound(j: Journal, id: string)
  {
    && id in j.attempts && j.attempts[id].parent in j.proposals
    && (j.attempts[id].kind.FollowUp? ==>
          && j.attempts[id].kind.of in j.attempts
          && j.attempts[id].kind.generation + 1 == |Rows(j.questions, j.attempts[id].kind.of)| <= DEPTH_LIMIT)
  }

  /** The generations of an attempt: each lasts 900 seconds and starts when the one before it is over. */
  ghost predicate QuestionsSound(j: Journal, id: string)
  {
    var qs, rs := Rows(j.questions, id), Rows(j.results, id);
    qs != [] ==>
      && rs != [] && rs[0].verdict == NeedsClarification
      && (forall i | 0 <= i < |qs| :: qs[i].record == rs[0].record && qs[i].expires == qs[i].created + QUESTION_SECONDS)
      && (forall i, k | 0 <= i < k < |qs| :: qs[i].expires <= qs[k].created)
  }

  ghost predicate DispatchSound(j: Journal) {
    && (forall id | id in j.holding :: id in j.claims && id !in j.sent)
    && (forall id | id in j.sent :: id in j.claims)
    && (forall i, k | 0 <= i < k < |j.sent| :: j.sent[i] != j.sent[k])
    && (forall id | id in j.claims :: id in j.attempts)
  }

  ghost predicate Inv(j: Journal) {
    && Owned(j)
    && (forall parent: nat :: HasChain(j.attempts, parent))
    && (forall id | id in j.attempts :: AttemptSound(j, id))
    && (forall id | id in j.publications :: PublishedSound(j, id))
    && (forall id: string :: QuestionsSound(j, id))
    && DispatchSound(j)
    && ChildrenSound(j)
  }

  /** Two published attempts have different children. */
  ghost predicate ChildrenSound(j: Journal) {
    forall a, b | a in j.publications && b in j.publications && a != b ::
      j.publications[a].child != j.publications[b].child
  }

  /** While a parent is the pending target, none of its attempts is published. */
  lemma NonePublished(j: Journal, intake: string, parent: nat, k: string)
    requires Inv(j) && Target(j, intake) == Some(parent)
    requires k in j.attempts && j.attempts[k].parent == parent
    ensures k !in j.publications
  {
    assert k in j.publications ==> PublishedSound(j, k);
  }

  lemma ChainsKept(j: Journal, e: Effect, parent: nat)
    requires Inv(j) && Guarded(j, e)
    ensures HasChain(Effected(j, e).attempts, parent)
  {
    EffectTables(j, e);
    hide Effected, PublishedSound, QuestionsSound, AttemptSound, DispatchSound, Owned, IsChain, PublicationGuard,
      QuestionGuard, Permitted, Target, FollowUpGuard;
    assert HasChain(j.attempts, parent);
    var c :| IsChain(j.attempts, parent, c);
    match e {
      case AddAttempt(id, a) =>
        if a.parent == parent {
          LastFollowed(j, a, c);
          ChainExtends(j.attempts, id, a, c);
        } else {
          ChainUntouched(j.attempts, id, a, parent, c);
        }
      case _ =>
    }
  }

  lemma LastFollowed(j: Journal, a: Attempt, c: seq<string>)
    requires Inv(j) && IsChain(j.attempts, a.parent, c)
    requires Target(j, a.intake) == Some(a.parent) && WalkGuard(j, a)
    requires a.kind.FollowUp? ==> FollowUpGuard(j, a.kind.of, a.kind.generation, a.parent)
    ensures if a.kind.FollowUp? then c != [] && a.kind.of == c[|c| - 1] else c == []
  {
    hide PublishedSound, QuestionsSound, AttemptSound, DispatchSound, Owned, HasChain, Target, HasSuccessor;
    var walk := Permitted(j.attempts, if a.kind.FollowUp? then Some(a.kind.of) else None, {});
    forall x | x in c ensures x in walk.value {
      var i :| 0 <= i < |c| && c[i] == x;
      assert Placed(j.attempts, a.parent, c, i);
      NonePublished(j, a.intake, a.parent, x);
    }
    if a.kind.FollowUp? {
      FollowsLast(j.attempts, a.parent, c, a.kind.of);
    } else {
      SomeMember(c);
    }
  }

  lemma SomeMember(c: seq<string>)
    ensures c != [] ==> exists x :: x in c
  {
    if c != [] { assert c[0] in c; }
  }

  lemma PublicationsKept(j: Journal, e: Effect, id: string)
    requires Inv(j) && Guarded(j, e) && id in Effected(j, e).publications
    ensures PublishedSound(Effected(j, e), id)
  {
    EffectTables(j, e);
    EffectGrows(j, e);
    var j' := Effected(j, e);
    if id in j.publications {
      assert PublishedSound(j, id);
      hide Effected, HasChain, QuestionsSound, AttemptSound, DispatchSound, AttemptGuard, PublicationGuard,
        QuestionGuard, Owned;
      assert Rows(j.results, id) <= Rows(j'.results, id);
    } else {
      hide HasChain, QuestionsSound, AttemptSound, DispatchSound, PublishedSound, Apply, AddEvent;
      NewlyPublished(j, id, e.publication);
    }
  }

  lemma NewlyPublished(j: Journal, id: string, p: Publication)
    requires PublicationGuard(j, id, p)
    ensures PublishedSound(Effected(j, AddPublication(id, p)), id)
  {
  }

  lemma AttemptsKept(j: Journal, e: Effect, id: string)
    requires Inv(j) && Guarded(j, e) && id in Effected(j, e).attempts
    ensures AttemptSound(Effected(j, e), id)
  {
    EffectTables(j, e);
    EffectGrows(j, e);
    hide Effected, HasChain, QuestionsSound, DispatchSound, PublishedSound, Owned, PublicationGuard;
    var j' := Effected(j, e);
    if id in j.attempts {
      assert AttemptSound(j, id);
      assert j.attempts[id].kind.FollowUp? ==>
        Consumed(j.attempts, j.attempts[id].kind.of, j.attempts[id].kind.generation);
    }
  }

  lemma QuestionsKept(j: Journal, e: Effect, id: string)
    requires Inv(j) && Guarded(j, e)
    ensures QuestionsSound(Effected(j, e), id)
  {
    EffectTables(j, e);
    EffectGrows(j, e);
    hide Effected, HasChain, AttemptSound, DispatchSound, PublishedSound, Owned, PublicationGuard, AttemptGuard,
      Consumed;
    assert QuestionsSound(j, id);
    var j' := Effected(j, e);
    assert Rows(j.results, id) <= Rows(j'.results, id);
    if e.AddQuestion? && e.id == id {
      QuestionAdded(j, j', id, e.question);
    } else {
      assert Rows(j'.questions, id) == Rows(j.questions, id);
      hide QuestionGuard;
    }
  }

  lemma QuestionAdded(j: Journal, j': Journal, id: string, q: Question)
    requires QuestionsSound(j, id) && QuestionGuard(j, id, q) && Rows(j.results, id) <= Rows(j'.results, id)
    requires Rows(j'.questions, id) == Rows(j.questions, id) + [q]
    ensures QuestionsSound(j', id)
  {
    hide Consumed;
    var qs, grown := Rows(j.questions, id), Rows(j'.questions, id);
    forall i, k | 0 <= i < k < |grown| ensures grown[i].expires <= grown[k].created {
      if k == |qs| && i < |qs| - 1 { assert qs[i].expires <= qs[|qs| - 1].created; }
    }
  }

  lemma DispatchKept(j: Journal, e: Effect)
    requires Inv(j) && Guarded(j, e)
    ensures DispatchSound(Effected(j, e))
  {
    EffectTables(j, e);
    hide Effected, HasChain, AttemptSound, QuestionsSound, PublishedSound, Owned, PublicationGuard, AttemptGuard,
      QuestionGuard;
  }

  lemma ChildrenKept(j: Journal, e: Effect)
    requires Inv(j) && Guarded(j, e)
    ensures ChildrenSound(Effected(j, e))
  {
    EffectTables(j, e);
    hide Effected, HasChain, AttemptSound, QuestionsSound, Owned, AttemptGuard, QuestionGuard, DispatchSound;
    assert forall id | id in j.publications :: PublishedSound(j, id);
  }

  lemma StepKeeps(j: Journal, s: Step)
    requires Inv(j)
    ensures Inv(After(j, s)) && Grows(j, After(j, s))
  {
    hide After, Guarded, Effected, HasChain, AttemptSound, QuestionsSound, PublishedSound, DispatchSound,
      ChildrenSound, Owned, Grows;
    var e := StepEffect(j, s);
    EffectGrows(j, e);
    forall parent: nat { ChainsKept(j, e, parent); }
    forall id | id in Effected(j, e).attempts { AttemptsKept(j, e, id); }
    forall id | id in Effected(j, e).publications { PublicationsKept(j, e, id); }
    forall id: string { QuestionsKept(j, e, id); }
    DispatchKept(j, e);
    ChildrenKept(j, e);
  }

  lemma {:induction false} RunKeeps(j: Journal, steps: seq<Step>)
    requires Inv(j)
    ensures Inv(Run(j, steps)) && Grows(j, Run(j, steps))
  {
    hide Inv, After;
    if steps == [] {
      GrowsSelf(j);
    } else {
      var front := steps[..|steps| - 1];
      RunKeeps(j, front);
      StepKeeps(Run(j, front), steps[|steps| - 1]);
      GrowsChain(j, Run(j, front), Run(j, steps));
    }
  }

  lemma GrowsSelf(j: Journal)
    ensures Grows(j, j)
  {
  }

  lemma GrowsChain(a: Journal, b: Journal, c: Journal)
    requires Grows(a, b) && Grows(b, c)
    ensures Grows(a, c)
  {
    KeepsRowsChain(a.questions, b.questions, c.questions);
    KeepsRowsChain(a.results, b.results, c.results);
    KeepsRowsChain(a.events, b.events, c.events);
    hide KeepsRows;
  }

  lemma KeepsRowsChain<T>(a: map<string, seq<T>>, b: map<string, seq<T>>, c: map<string, seq<T>>)
    requires KeepsRows(a, b) && KeepsRows(b, c)
    ensures KeepsRows(a, c)
  {
    forall k: string ensures Rows(a, k) <= Rows(c, k) {
      assert Rows(a, k) <= Rows(b, k) <= Rows(c, k);
    }
  }

  lemma EmptyGood()
    ensures Inv(EMPTY)
  {
    forall parent: nat ensures HasChain(EMPTY.attempts, parent) { assert IsChain(EMPTY.attempts, parent, []); }
  }
}
