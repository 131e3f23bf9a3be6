/** Independent AI invocations: prepare, claim, dispatch, record, publish, and the clarification
    questions and follow-ups between them. Every operation is one transaction: it either yields
    the new journal or is refused and rolled back. */
module AiJournal {
  import opened Prelude

  // --------------------------------------------------------------- tables

  /** A parser proposal; `pending` while it still awaits confirmation. */
  datatype Proposal = Proposal(intake: string, pending: bool, version: nat, hash: string)

  /** What an attempt answers. A follow-up names the question it consumes; its link row repeats that. */
  datatype Kind = Initial | CardEdit(review: string) | FollowUp(of: string, generation: nat)

  /** Attempts are named by their operation, which determines their identity. */
  datatype Attempt = Attempt(
    intake: string, parent: nat, version: nat, hash: string, eventKey: string,
    kind: Kind, input: string, created: int, deadline: int)

  datatype Verdict = Valid | NeedsClarification | Rejected | Late | NotSent | OutcomeUnknown

  datatype ResultRow = ResultRow(record: string, verdict: Verdict, observedAt: int)

  datatype Event = Cancelled | CancelRequested | Uncertain

  datatype Publication = Publication(child: nat, hash: string)

  /** A question is named by its attempt and its generation, the index in the attempt's list. */
  datatype Question = Question(record: string, created: int, expires: int)

  /** `holding` are the attempts whose dispatch request some process still has in memory;
      `sent` is the provider's log of dispatches. */
  datatype Journal = Journal(
    proposals: map<nat, Proposal>, targets: map<string, nat>, decided: set<string>,
    attempts: map<string, Attempt>, questions: map<string, seq<Question>>, claims: map<string, int>,
    results: map<string, seq<ResultRow>>, records: map<string, string>, events: map<string, seq<Event>>,
    publications: map<string, Publication>, holding: set<string>, sent: seq<string>)

  const EMPTY := Journal(map[], map[], {}, map[], map[], map[], map[], map[], map[], map[], {}, [])

  const DEPTH_LIMIT: nat := 128
  const QUESTION_SECONDS := 900
  const CLAIM_SECONDS := 5

  // --------------------------------------------------------------- reading

  /** The current pending proposal of an intake that nobody has decided. */
  function Target(j: Journal, intake: string): Option<nat> {
    if intake in j.targets && intake !in j.decided && j.targets[intake] in j.proposals
       && j.proposals[j.targets[intake]].intake == intake && j.proposals[j.targets[intake]].pending
    then Some(j.targets[intake]) else None
  }

  /** The attempt's proposal is still the current target, unchanged. */
  predicate Current(j: Journal, a: Attempt) {
    && a.intake in j.targets && a.intake !in j.decided && j.targets[a.intake] == a.parent
    && a.parent in j.proposals && j.proposals[a.parent].pending
    && j.proposals[a.parent].version == a.version && j.proposals[a.parent].hash == a.hash
  }

  function Predecessor(attempts: map<string, Attempt>, id: string): Option<string> {
    if id in attempts && attempts[id].kind.FollowUp? then Some(attempts[id].kind.of) else None
  }

  predicate Consumed(attempts: map<string, Attempt>, id: string, generation: nat) {
    exists s | s in attempts :: attempts[s].kind == FollowUp(id, generation)
  }

  /** The checks on the generations of one attempt's questions, oldest first. */
  predicate GenerationsVerify(j: Journal, id: string) {
    var qs, rs := Rows(j.questions, id), Rows(j.results, id);
    && 0 < |qs| <= DEPTH_LIMIT
    && (forall i | 0 <= i < |qs| :: qs[i].expires == qs[i].created + QUESTION_SECONDS)
    && (forall i | 0 <= i < |qs| :: Asked(rs, qs[i]))
    && (forall i | 0 < i < |qs| :: Refreshes(j, id, qs, i))
  }

  predicate Asked(rs: seq<ResultRow>, q: Question) {
    exists r | r in rs :: r.record == q.record && r.verdict == NeedsClarification
  }

  /** Generation `i` came after the one before it expired unanswered. */
  predicate Refreshes(j: Journal, id: string, qs: seq<Question>, i: nat)
    requires 0 < i < |qs|
  {
    qs[i - 1].expires <= qs[i].created && !Consumed(j.attempts, id, i - 1)
  }

  /** Verification of an attempt, down its follow-up ancestry, with the stack of the attempts
      being verified. The guard makes it terminate on any journal, cyclic or not. */
  predicate AttemptVerifies(j: Journal, id: string, stack: seq<string>)
    decreases DEPTH_LIMIT - |stack|, 0
  {
    && id !in stack && |stack| < DEPTH_LIMIT
    && id in j.attempts
    && (j.attempts[id].kind.FollowUp? ==>
          QuestionVerifies(j, j.attempts[id].kind.of, j.attempts[id].kind.generation, stack + [id]))
  }

  predicate QuestionVerifies(j: Journal, id: string, generation: nat, stack: seq<string>)
    decreases DEPTH_LIMIT - |stack|, 1
  {
    && AttemptVerifies(j, id, stack)
    && GenerationsVerify(j, id)
    && generation < |Rows(j.questions, id)|
  }

  datatype QuestionState = QConsumed | QStale | QCancelled | QExpired | QOpen

  function QuestionStateOf(j: Journal, id: string, generation: nat, now: int): QuestionState
    requires id in j.attempts && generation < |Rows(j.questions, id)|
  {
    if Consumed(j.attempts, id, generation) then QConsumed
    else if generation + 1 < |Rows(j.questions, id)| then QStale
    else if Rows(j.events, id) != [] then QCancelled
    else if !Current(j, j.attempts[id]) then QStale
    else if now >= Rows(j.questions, id)[generation].expires then QExpired else QOpen
  }

  datatype Status =
    | Prepared
    | Published(publication: Publication, isCurrent: bool)
    | StatusCancelled
    | StatusUnknown
    | ResultStale
    | Outcome(verdict: Verdict)

  /** The published child is still the proposal of its intake, unrevised. */
  predicate IsLeaf(j: Journal, intake: string, p: Publication) {
    && intake in j.targets && j.targets[intake] == p.child && p.child in j.proposals
    && j.proposals[p.child].version == 0 && j.proposals[p.child].hash == p.hash
  }

  function StatusOf(j: Journal, id: string): Status
    requires id in j.attempts
  {
    var rs, es := Rows(j.results, id), Rows(j.events, id);
    if id in j.publications
      then Published(j.publications[id], IsLeaf(j, j.attempts[id].intake, j.publications[id]))
    else if Cancelled in es then StatusCancelled
    else if CancelRequested in es || Uncertain in es then StatusUnknown
    else if |rs| > 1 then StatusUnknown
    else if |rs| == 1
      then (if rs[0].verdict == Valid && !Current(j, j.attempts[id]) then ResultStale else Outcome(rs[0].verdict))
    else if id !in j.claims && !Current(j, j.attempts[id]) then ResultStale
    else if id in j.claims then StatusUnknown else Prepared
  }

  // -------------------------------------------------------------- prepare

  /** The ancestor walk of a new follow-up: every attempt from `cursor` to the chain's start. */
  function Permitted(attempts: map<string, Attempt>, cursor: Option<string>, seen: set<string>): Option<set<string>>
    decreases DEPTH_LIMIT - |seen|
  {
    if cursor.None? then Some(seen)
    else if cursor.value in seen || |seen| >= DEPTH_LIMIT then None
    else Permitted(attempts, Predecessor(attempts, cursor.value), seen + {cursor.value})
  }

  /** What the retained display says it was made for. */
  datatype Display = Display(parent: nat, version: nat, hash: string, created: int, expires: int)

  /** The display of the interaction; a follow-up's display is its question, which must be open. */
  function DisplayOf(j: Journal, kind: Kind, card: Display, now: int): Option<Display> {
    if !kind.FollowUp? then Some(card)
    else if !QuestionVerifies(j, kind.of, kind.generation, [])
        || QuestionStateOf(j, kind.of, kind.generation, now) != QOpen then None
    else
      var a, q := j.attempts[kind.of], j.questions[kind.of][kind.generation];
      Some(Display(a.parent, a.version, a.hash, q.created, q.expires))
  }

  predicate Insertable(j: Journal, id: string, a: Attempt) {
    && id !in j.attempts
    && forall k | k in j.attempts ::
         var b := j.attempts[k];
         && !(b.eventKey == a.eventKey && b.kind.Initial? == a.kind.Initial? && b.input == a.input)
         && !(b.parent == a.parent && b.version == a.version && b.hash == a.hash
         && b.kind.Initial? == a.kind.Initial? && b.input == a.input)
         && !(a.kind.FollowUp? && b.kind.FollowUp? && b.kind.of == a.kind.of)
  }

  /** What the request and its verified source and reply supply; `allowed` is what the source,
      reply and lineage authorities answered. */
  datatype Request = Request(
    id: string, intake: string, kind: Kind, input: string, card: Display, eventKey: string,
    seconds: nat, replyExpires: int, allowed: bool)

  function Min(a: int, b: int): int { if a <= b then a else b }

  function Prepare(j: Journal, now: int, q: Request): Option<Journal> {
    if q.id in j.attempts then
      (if j.attempts[q.id].intake == q.intake && j.attempts[q.id].input == q.input && j.attempts[q.id].kind == q.kind
          && AttemptVerifies(j, q.id, []) then Some(j) else None)
    else if !q.allowed || Target(j, q.intake).None? || DisplayOf(j, q.kind, q.card, now).None? then None
    else
      var parent := Target(j, q.intake).value;
      var p, d := j.proposals[parent], DisplayOf(j, q.kind, q.card, now).value;
      var shown := d.parent == parent && d.version == p.version && d.hash == p.hash && d.created <= now < d.expires;
      var deadline := if q.kind.Initial? then now + q.seconds else Min(now + q.seconds, q.replyExpires);
      var a := Attempt(q.intake, parent, p.version, p.hash, q.eventKey, q.kind, q.input, now, deadline);
      var permitted := Permitted(j.attempts, if q.kind.FollowUp? then Some(q.kind.of) else None, {});
      if !q.kind.Initial? && !shown then None
      else if permitted.None? then None
      else if exists k | k in j.attempts ::
        j.attempts[k].parent == parent && k !in j.publications && k !in permitted.value then None
      else if !Insertable(j, q.id, a) || now <= 0 || deadline <= now then None
      else Some(j.(attempts := j.attempts[q.id := a]))
  }

  // ------------------------------------------------------ claim and dispatch

  /** The attempt verifies and its target is current: what every writing operation asks first. */
  predicate Usable(j: Journal, id: string, allowed: bool) {
    allowed && AttemptVerifies(j, id, []) && Current(j, j.attempts[id])
  }

  function AddEvent(j: Journal, id: string, e: Event): Journal {
    if e in Rows(j.events, id) then j else j.(events := j.events[id := Rows(j.events, id) + [e]])
  }

  function Claim(j: Journal, now: int, id: string, allowed: bool): Option<Journal> {
    if id in j.publications then Some(j)
    else if !Usable(j, id, allowed) then None
    else if StatusOf(j, id) == ResultStale then None
    else if StatusOf(j, id) != Prepared then Some(j)
    else if now >= j.attempts[id].deadline then Some(AddEvent(j, id, Uncertain))
    else Some(j.(claims := j.claims[id := now], holding := j.holding + {id}))
  }

  /** The claiming process calls the provider, if its request is still timely. */
  function Dispatch(j: Journal, now: int, id: string): Option<Journal> {
    if id !in j.holding || id !in j.claims || id !in j.attempts then None
    else
      var spent := j.(holding := j.holding - {id});
      if j.claims[id] <= now < Min(j.claims[id] + CLAIM_SECONDS, j.attempts[id].deadline)
      then Some(spent.(sent := j.sent + [id]))
      else Some(AddEvent(spent, id, Uncertain))
  }

  /** The process stops between claim and dispatch: its request is lost. */
  function Crash(j: Journal, id: string): Option<Journal> {
    Some(j.(holding := j.holding - {id}))
  }

  /** The provider call raised: the dispatch is uncertain. */
  function DispatchFailed(j: Journal, id: string): Option<Journal> {
    if id !in j.sent then None else Some(AddEvent(j, id, Uncertain))
  }

  // -------------------------------------------------------------- outcomes

  datatype Reading = ReadsValid | ReadsUnclear | ReadsInvalid

  datatype Observation = Response(matches: bool, reading: Reading) | NothingSent | NothingKnown

  function Validate(a: Attempt, o: Observation, observedAt: int): Verdict {
    match o
    case NothingSent => NotSent
    case NothingKnown => OutcomeUnknown
    case Response(matches, reading) =>
      if !matches then Rejected
      else if observedAt >= a.deadline then Late
      else match reading case ReadsValid => Valid case ReadsUnclear => NeedsClarification case ReadsInvalid => Rejected
  }

  function Record(j: Journal, now: int, id: string, record: string, o: Observation, observedAt: int,
                  allowed: bool): Option<Journal> {
    if !Usable(j, id, allowed) || id !in j.claims || !(j.claims[id] <= observedAt <= now) then None
    else
      var row := ResultRow(record, Validate(j.attempts[id], o, observedAt), observedAt);
      if record in j.records then (if j.records[record] == id && row in Rows(j.results, id) then Some(j) else None)
      else Some(j.(results := j.results[id := Rows(j.results, id) + [row]], records := j.records[record := id]))
  }

  function Publish(j: Journal, now: int, id: string, child: nat, hash: string, allowed: bool): Option<Journal> {
    if id in j.publications then Some(j)
    else if !Usable(j, id, allowed) || Rows(j.events, id) != [] then None
    else
      var a, rs := j.attempts[id], Rows(j.results, id);
      if |rs| != 1 || rs[0].verdict != Valid || now >= a.deadline then None
      else if Target(j, a.intake) != Some(a.parent) || child in j.proposals then None
      else
        Some(j.(proposals := j.proposals[a.parent := j.proposals[a.parent].(pending := false)]
                                        [child := Proposal(a.intake, true, 0, hash)],
                targets := j.targets[a.intake := child],
                publications := j.publications[id := Publication(child, hash)]))
  }

  function Cancel(j: Journal, id: string, allowed: bool): Option<Journal> {
    if !Usable(j, id, allowed) || id in j.publications then None
    else if id in j.claims then Some(AddEvent(AddEvent(j, id, CancelRequested), id, Uncertain))
    else Some(AddEvent(j, id, Cancelled))
  }

  function Recover(j: Journal, id: string, allowed: bool): Option<Journal> {
    if !allowed || !AttemptVerifies(j, id, []) then None
    else if StatusOf(j, id) == StatusUnknown && Current(j, j.attempts[id]) then Some(AddEvent(j, id, Uncertain))
    else Some(j)
  }

  // ------------------------------------------------------------- questions

  /** Ask, or refresh an expired question; an open question is returned again. */
  function Ask(j: Journal, now: int, id: string, allowed: bool): Option<Journal> {
    if !Usable(j, id, allowed) || StatusOf(j, id) != Outcome(NeedsClarification) || now <= 0 then None
    else
      var qs := Rows(j.questions, id);
      var made := j.(questions :=
        j.questions[id := qs + [Question(Rows(j.results, id)[0].record, now, now + QUESTION_SECONDS)]]);
      if qs == [] then Some(made)
      else if !QuestionVerifies(j, id, |qs| - 1, []) then None
      else
        match QuestionStateOf(j, id, |qs| - 1, now)
        case QOpen => Some(j)
        case QExpired => Some(made)
        case _ => None
  }

  // ----------------------------------------------------------- environment

  /** What the rest of the system does to proposals. */
  datatype Change =
    | Receive(intake: string, proposal: nat, hash: string)
    | Revise(intake: string, hash: string)
    | Amend(intake: string, proposal: nat, hash: string)
    | Withdraw(proposal: nat)
    | Decide(intake: string)

  function Apply(j: Journal, c: Change): Option<Journal> {
    match c
    case Receive(intake, p, hash) =>
      if intake in j.targets || p in j.proposals then None
      else Some(j.(proposals := j.proposals[p := Proposal(intake, true, 0, hash)], targets := j.targets[intake := p]))
    case Revise(intake, hash) =>
      if Target(j, intake).None? then None
      else
        var t := Target(j, intake).value;
        Some(j.(proposals := j.proposals[t := j.proposals[t].(version := j.proposals[t].version + 1, hash := hash)]))
    case Amend(intake, p, hash) =>
      if Target(j, intake).None? || p in j.proposals then None
      else
        var t := Target(j, intake).value;
        Some(j.(proposals := j.proposals[t := j.proposals[t].(pending := false)][p := Proposal(intake, true, 0, hash)],
                targets := j.targets[intake := p]))
    case Withdraw(p) =>
      if p !in j.proposals then None else Some(j.(proposals := j.proposals[p := j.proposals[p].(pending := false)]))
    case Decide(intake) => Some(j.(decided := j.decided + {intake}))
  }

  // ------------------------------------------------------------------ runs

  datatype Op =
    | OpPrepare(request: Request)
    | OpClaim(id: string, allowed: bool)
    | OpDispatch(id: string)
    | OpCrash(id: string)
    | OpDispatchFailed(id: string)
    | OpRecord(id: string, record: string, observation: Observation, observedAt: int, allowed: bool)
    | OpPublish(id: string, child: nat, hash: string, allowed: bool)
    | OpCancel(id: string, allowed: bool)
    | OpRecover(id: string, allowed: bool)
    | OpAsk(id: string, allowed: bool)
    | OpChange(change: Change)

  function Try(j: Journal, now: int, op: Op): Option<Journal> {
    match op
    case OpPrepare(q) => Prepare(j, now, q)
    case OpClaim(id, allowed) => Claim(j, now, id, allowed)
    case OpDispatch(id) => Dispatch(j, now, id)
    case OpCrash(id) => Crash(j, id)
    case OpDispatchFailed(id) => DispatchFailed(j, id)
    case OpRecord(id, record, o, at, allowed) => Record(j, now, id, record, o, at, allowed)
    case OpPublish(id, child, hash, allowed) => Publish(j, now, id, child, hash, allowed)
    case OpCancel(id, allowed) => Cancel(j, id, allowed)
    case OpRecover(id, allowed) => Recover(j, id, allowed)
    case OpAsk(id, allowed) => Ask(j, now, id, allowed)
    case OpChange(c) => Apply(j, c)
  }

  /** One transaction at clock value `now`; a refused one changes nothing. */
  datatype Step = Step(now: int, op: Op)

  function After(j: Journal, s: Step): Journal {
    var r := Try(j, s.now, s.op);
    if r.Some? then r.value else j
  }

  function Run(j: Journal, steps: seq<Step>): Journal {
    if steps == [] then j else After(Run(j, steps[..|steps| - 1]), steps[|steps| - 1])
  }
}
