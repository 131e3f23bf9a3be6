/** Delivery ordering and supersession over every run of the review book. */
module ReviewRuns {
  import opened Prelude
  import opened ReviewBook

  // ------------------------------------------------------------- changes

  /** The possible effects of a step on the book. */
  datatype Change =
    | Same
    | AddReview(id: string, review: Review)
    | BindReference(reference: string, id: string)
    | AddDelivery(reference: string, id: string, delivery: Delivery)
    | AddConflict(id: string, token: string, observation: Observation, conflict: Conflict)
    | Activate(id: string, token: string, observation: Observation, activation: Activation)
    | Supersede(id: string, successor: string, review: Review, supersession: Supersession)
    | Accept(reference: string, id: string, redemption: Redemption, proposals: map<string, Proposal>,
      acceptance: Acceptance)
    | Decide(proposals: map<string, Proposal>)
    | Clock(now: int)

  function Changed(b: Book, c: Change): Book {
    match c
    case Same => b
    case AddReview(id, r) => b.(reviews := b.reviews[id := r])
    case BindReference(ref, id) => b.(bindings := b.bindings[ref := id])
    case AddDelivery(ref, id, d) =>
      b.(bindings := b.bindings[ref := id], deliveries := b.deliveries[id := d], nonces := b.nonces[d.nonce := id])
    case AddConflict(id, token, o, x) =>
      b.(observations := b.observations[token := o], conflicts := b.conflicts[id := Rows(b.conflicts, id) + [x]])
    case Activate(id, token, o, a) =>
      b.(observations := b.observations[token := o], activations := b.activations[id := a])
    case Supersede(id, succ, r, x) =>
      b.(reviews := b.reviews[succ := r], supersessions := b.supersessions[id := x])
    case Accept(ref, id, x, ps, acc) =>
      b.(redemptions := b.redemptions[ref := x], proposals := ps, accepted := b.accepted[id := acc])
    case Decide(ps) => b.(proposals := ps)
    case Clock(now) => b.(now := now)
  }

  /** What a step checked before it made the change. */
  predicate Guarded(b: Book, c: Change) {
    match c
    case Same => true
    case AddReview(id, r) => id !in b.reviews && r.predecessor.None? && r.generation == 1
    case BindReference(ref, id) => ref in b.bindings ==> b.bindings[ref] == id
    case AddDelivery(ref, id, d) =>
      && (ref in b.bindings ==> b.bindings[ref] == id)
      && id in b.reviews && d.context == b.reviews[id].context && id !in b.deliveries
    case AddConflict(id, token, o, x) => token !in b.observations && id in b.activations && x.at == b.now
    case Activate(id, token, o, a) =>
      && token !in b.observations && id !in b.activations && id in b.deliveries && id in b.reviews
      && b.deliveries[id].context.place == o.place == a.place && b.deliveries[id].material == o.material == a.material
      && o.outcome == Success && o.deliveryId == a.deliveryId == b.deliveries[id].id && o.id == a.observationId
      && o.message == a.message && a.token == token && a.source == o.source
    case Supersede(id, succ, r, x) =>
      && id in b.reviews && id !in b.accepted && id !in b.supersessions && succ !in b.reviews && x.successor == succ
      && r.predecessor == Some(id) && r.generation == b.reviews[id].generation + 1
    case Accept(ref, id, x, ps, acc) =>
      && ref in b.bindings && b.bindings[ref] == id && ref !in b.redemptions && acc.reference == ref
      && acc.acceptedAt == b.now
      && id !in b.accepted && id !in b.supersessions && Rows(b.conflicts, id) == [] && ActivationSound(b, id)
    case Decide(ps) => true
    case Clock(now) => b.now <= now
  }

  /** The change, table by table. */
  lemma ChangedTables(b: Book, c: Change)
    ensures var b' := Changed(b, c);
            && b'.now == (if c.Clock? then c.now else b.now)
            && b'.reviews == (if c.AddReview? then b.reviews[c.id := c.review]
                              else if c.Supersede? then b.reviews[c.successor := c.review] else b.reviews)
            && b'.bindings
               == (if c.BindReference? || c.AddDelivery? then b.bindings[c.reference := c.id] else b.bindings)
            && b'.deliveries == (if c.AddDelivery? then b.deliveries[c.id := c.delivery] else b.deliveries)
            && b'.observations
               == (if c.AddConflict? || c.Activate? then b.observations[c.token := c.observation] else b.observations)
            && b'.activations == (if c.Activate? then b.activations[c.id := c.activation] else b.activations)
            && b'.conflicts
               == (if c.AddConflict? then b.conflicts[c.id := Rows(b.conflicts, c.id) + [c.conflict]] else b.conflicts)
            && b'.supersessions == (if c.Supersede? then b.supersessions[c.id := c.supersession] else b.supersessions)
            && b'.redemptions == (if c.Accept? then b.redemptions[c.reference := c.redemption] else b.redemptions)
            && b'.accepted == (if c.Accept? then b.accepted[c.id := c.acceptance] else b.accepted)
  {
  }

  lemma PrepareIsChange(b: Book, id: string, r: Review) returns (c: Change)
    requires Prepare(b, id, r).Ok?
    ensures Guarded(b, c) && Prepare(b, id, r).value == Changed(b, c)
  {
    hide ActivationSound;
    c := if Prepare(b, id, r).value == b then Same else AddReview(id, r);
  }

  lemma BeginIsChange(b: Book, id: string, reference: string, d: Delivery, card: bool) returns (c: Change)
    requires Begin(b, id, reference, d, card).Ok?
    ensures Guarded(b, c) && Begin(b, id, reference, d, card).value == Changed(b, c)
  {
    hide Current, ActivationSound;
    c := if Begin(b, id, reference, d, card).value == b.(bindings := b.bindings[reference := id])
         then BindReference(reference, id) else AddDelivery(reference, id, d);
  }

  lemma RecordIsChange(ids: Identities, b: Book, x: Receipt, card: bool) returns (c: Change)
    ensures Guarded(b, c) && Record(ids, b, x, card).0 == Changed(b, c)
  {
    hide Current, SameMessage, ObservationInsertable, ActivationSound;
    if Record(ids, b, x, card).0 == b { return Same; }
    var id := b.nonces[x.nonce];
    var d := b.deliveries[id];
    var o := Observation(ids.observation(d.id, x.message, x.material, x.token), d.id,
                         if id in b.activations then Conflicting else Success,
                         x.message, x.material, x.source, x.place, b.now);
    c := if id in b.activations
         then AddConflict(id, x.token, o, Conflict(o.id, b.activations[id].message, x.message, x.token, b.now))
         else Activate(id, x.token, o,
           Activation(o.deliveryId, o.id, x.message, x.material, x.token, x.source, x.place, b.now));
  }

  lemma ReplaceIsChange(ids: Identities, b: Book, pred: string, key: string, material: string, reason: Reason,
                        context: Context)
    returns (c: Change)
    requires Replace(ids, b, pred, key, material, reason, context).Ok?
    ensures Guarded(b, c) && Replace(ids, b, pred, key, material, reason, context).value == Changed(b, c)
  {
    hide ActivationSound;
    if Replace(ids, b, pred, key, material, reason, context).value == b { return Same; }
    var succ := ids.successor(pred, key, material);
    c := Supersede(pred, succ, SuccessorOf(b, pred, b.reviews[pred], key), Supersession(succ, key, material, reason));
  }

  lemma ConfirmIsChange(ids: Identities, b: Book, x: Callback, k: Option<Conflict>, ref: bool, card: bool, payer: bool)
    returns (c: Change)
    requires x.reference in b.bindings ==> Joined(b, b.bindings[x.reference], k)
    requires Confirm(ids, b, x, k, ref, card, payer).Ok?
    ensures Guarded(b, c) && Confirm(ids, b, x, k, ref, card, payer).value == Changed(b, c)
  {
    var b' := Confirm(ids, b, x, k, ref, card, payer).value;
    if b' == b { return Same; }
    var id := b.bindings[x.reference];
    c := Accept(x.reference, id, Redemption(x.id, x.message), b'.proposals,
                Acceptance(x.reference, ids.attempt(id, x.reference), b.now));
  }

  /** Every step is one guarded change. */
  lemma StepIsChange(ids: Identities, b: Book, op: Op) returns (c: Change)
    ensures Guarded(b, c) && Step(ids, b, op) == Changed(b, c)
  {
    hide Prepare, Begin, Record, Replace, Confirm, PickConflict, Guarded, Changed;
    NothingIsChange(b);
    c := Same;
    match op
    case DoPrepare(id, r) => if Prepare(b, id, r).Ok? { c := PrepareIsChange(b, id, r); }
    case DoBegin(id, reference, d, card) =>
      if Begin(b, id, reference, d, card).Ok? { c := BeginIsChange(b, id, reference, d, card); }
    case DoRecord(x, card) => c := RecordIsChange(ids, b, x, card);
    case DoReplace(pred, key, material, reason, context) =>
      if Replace(ids, b, pred, key, material, reason, context).Ok? {
        c := ReplaceIsChange(ids, b, pred, key, material, reason, context);
      }
    case DoConfirm(x, row, ref, card, payer) =>
      var k := if x.reference in b.bindings then PickConflict(b, b.bindings[x.reference], row) else None;
      if Confirm(ids, b, x, k, ref, card, payer).Ok? { c := ConfirmIsChange(ids, b, x, k, ref, card, payer); }
    case ProposalChanges(p, v) => c := Decide(b.proposals[p := v]); WorldIsChange(b, c);
    case Wait(s) => c := Clock(b.now + s); WorldIsChange(b, c);
    case Crash =>
  }

  lemma NothingIsChange(b: Book)
    ensures Guarded(b, Same) && Changed(b, Same) == b
  {
  }

  lemma WorldIsChange(b: Book, c: Change)
    requires c.Decide? || (c.Clock? && b.now <= c.now)
    ensures Guarded(b, c)
    ensures Changed(b, c) == if c.Decide? then b.(proposals := c.proposals) else b.(now := c.now)
  {
  }

  // ------------------------------------------------- append-only growth

  /** Every table only gains rows and the clock does not run back. */
  ghost predicate Grows(b: Book, b': Book) {
    && b.now <= b'.now
    && Keeps(b.reviews, b'.reviews) && Keeps(b.bindings, b'.bindings) && Keeps(b.deliveries, b'.deliveries)
    && Keeps(b.observations, b'.observations) && Keeps(b.activations, b'.activations)
    && KeepsRows(b.conflicts, b'.conflicts) && Keeps(b.supersessions, b'.supersessions)
    && Keeps(b.redemptions, b'.redemptions) && Keeps(b.accepted, b'.accepted)
  }

  lemma StepGrows(ids: Identities, b: Book, op: Op)
    ensures Grows(b, Step(ids, b, op))
  {
    hide Step, ActivationSound, Changed, Guarded;
    var c := StepIsChange(ids, b, op);
    ChangedTables(b, c);
    TablesGrow(b, c);
    ClockGrows(b, c);
  }

  lemma ClockGrows(b: Book, c: Change)
    requires Guarded(b, c)
    ensures b.now <= Changed(b, c).now
  {
    hide ActivationSound;
  }

  lemma TablesGrow(b: Book, c: Change)
    requires Guarded(b, c)
    ensures var b' := Changed(b, c);
            && Keeps(b.reviews, b'.reviews) && Keeps(b.bindings, b'.bindings) && Keeps(b.deliveries, b'.deliveries)
            && Keeps(b.observations, b'.observations) && Keeps(b.activations, b'.activations)
            && KeepsRows(b.conflicts, b'.conflicts) && Keeps(b.supersessions, b'.supersessions)
            && Keeps(b.redemptions, b'.redemptions) && Keeps(b.accepted, b'.accepted)
  {
    hide ActivationSound, Changed, KeepsRows;
    ChangedTables(b, c);
    if c.AddConflict? { AppendKeepsRows(b.conflicts, c.id, Rows(b.conflicts, c.id) + [c.conflict]); } else {
      SameRows(b.conflicts);
    }
  }

  lemma SameRows<T>(table: map<string, seq<T>>)
    ensures KeepsRows(table, table)
  {
  }

  lemma GrowsTransitive(a: Book, b: Book, c: Book)
    requires Grows(a, b) && Grows(b, c)
    ensures Grows(a, c)
  {
    forall k: string ensures Rows(a.conflicts, k) <= Rows(c.conflicts, k) {
      assert Rows(a.conflicts, k) <= Rows(b.conflicts, k) <= Rows(c.conflicts, k);
    }
  }

  /** Activation is write-once and a receipt token stays credited to one attempt and message:
      whatever a book holds, no run rewrites its activations, observations or acceptances. */
  lemma {:induction false} RunGrows(ids: Identities, b: Book, ops: seq<Op>)
    ensures Grows(b, Run(ids, b, ops))
  {
    hide Step;
    if ops != [] {
      RunGrows(ids, b, ops[..|ops| - 1]);
      var middle := Run(ids, b, ops[..|ops| - 1]);
      StepGrows(ids, middle, ops[|ops| - 1]);
      GrowsTransitive(b, middle, Step(ids, middle, ops[|ops| - 1]));
    }
  }

  // ----------------------------------------------------- never accepted

  /** A review that can no longer be confirmed: superseded, or in conflict before acceptance. */
  predicate Barred(b: Book, id: string) {
    id !in b.accepted && (id in b.supersessions || Rows(b.conflicts, id) != [])
  }

  /** A superseded review is never accepted afterwards, and neither is one that received a
      second provider message before its Confirm. */
  lemma {:induction false} BarredForever(ids: Identities, b: Book, ops: seq<Op>, id: string)
    requires Barred(b, id)
    ensures Barred(Run(ids, b, ops), id) && id !in Run(ids, b, ops).accepted
  {
    hide Step, ActivationSound, Changed;
    if ops != [] {
      BarredForever(ids, b, ops[..|ops| - 1], id);
      var c := StepIsChange(ids, Run(ids, b, ops[..|ops| - 1]), ops[|ops| - 1]);
      ChangedTables(Run(ids, b, ops[..|ops| - 1]), c);
    }
  }

  /** An accepted review is never superseded afterwards. */
  lemma {:induction false} AcceptedNeverSuperseded(ids: Identities, b: Book, ops: seq<Op>, id: string)
    requires id in b.accepted && id !in b.supersessions
    ensures id in Run(ids, b, ops).accepted && id !in Run(ids, b, ops).supersessions
  {
    hide Step, ActivationSound, Changed;
    if ops != [] {
      AcceptedNeverSuperseded(ids, b, ops[..|ops| - 1], id);
      var c := StepIsChange(ids, Run(ids, b, ops[..|ops| - 1]), ops[|ops| - 1]);
      ChangedTables(Run(ids, b, ops[..|ops| - 1]), c);
    }
  }

  // ---------------------------------------------------------- invariant

  /** The authority of a review's activation, apart from conflicts. */
  predicate ActivationSound(b: Book, id: string) {
    && id in b.reviews && id in b.deliveries && id in b.activations && b.activations[id].token in b.observations
    && var a := b.activations[id];
    DeliveryAuthority(b.reviews[id], b.deliveries[id], a, a.token, b.observations[a.token], None, None, false)
  }

  /** Supersession rows and predecessor columns are one relation, and generations count along it. */
  ghost predicate Linked(b: Book) {
    && (forall id | id in b.reviews :: Preceded(b.reviews, b.supersessions, id))
    && (forall q | q in b.supersessions :: Succeeded(b.reviews, b.supersessions, q))
  }

  ghost predicate Preceded(reviews: map<string, Review>, rows: map<string, Supersession>, id: string) {
    id in reviews &&
    match reviews[id].predecessor
    case None => reviews[id].generation == 1
    case Some(q) => q in rows && rows[q].successor == id
  }

  ghost predicate Succeeded(reviews: map<string, Review>, rows: map<string, Supersession>, q: string) {
    q in rows && q in reviews &&
    var next := rows[q].successor;
    next in reviews && reviews[next].predecessor == Some(q) && reviews[next].generation == reviews[q].generation + 1
  }

  ghost predicate DeliverySound(b: Book) {
    && (forall id | id in b.deliveries :: id in b.reviews && b.deliveries[id].context == b.reviews[id].context)
    && (forall id | id in b.activations :: ActivationSound(b, id))
  }

  ghost predicate AcceptedSound(b: Book, id: string) {
    && id in b.accepted && id !in b.supersessions && ActivationSound(b, id)
    && b.accepted[id].acceptedAt <= b.now
    && forall c | c in Rows(b.conflicts, id) :: b.accepted[id].acceptedAt <= c.at
  }

  ghost predicate AcceptanceSound(b: Book) {
    && (forall id | id in b.accepted :: AcceptedSound(b, id))
    && (forall ref | ref in b.redemptions ::
          ref in b.bindings && b.bindings[ref] in b.accepted && b.accepted[b.bindings[ref]].reference == ref)
  }

  ghost predicate Inv(b: Book) {
    Linked(b) && DeliverySound(b) && AcceptanceSound(b)
  }

  lemma ActivationStaysSound(b: Book, c: Change, id: string)
    requires Guarded(b, c) && ActivationSound(b, id)
    ensures ActivationSound(Changed(b, c), id)
  {
    hide Changed;
    ChangedTables(b, c);
  }

  lemma LinkedKept(b: Book, c: Change)
    requires Guarded(b, c) && Linked(b)
    ensures Linked(Changed(b, c))
  {
    hide ActivationSound, Changed;
    ChangedTables(b, c);
    var b' := Changed(b, c);
    if c.AddReview? {
      assert Preceded(b'.reviews, b'.supersessions, c.id);
      LinksStay(b, b', c.id);
    } else if c.Supersede? {
      assert Preceded(b'.reviews, b'.supersessions, c.successor);
      assert Succeeded(b'.reviews, b'.supersessions, c.id);
      LinksStay(b, b', c.successor);
    }
    hide Preceded, Succeeded, Guarded;
  }

  /** A new review, with or without a new supersession row, leaves the old links as they were. */
  lemma LinksStay(b: Book, b': Book, made: string)
    requires made !in b.reviews && made in b'.reviews && b'.reviews == b.reviews[made := b'.reviews[made]]
             && Keeps(b.supersessions, b'.supersessions)
    ensures forall id | Preceded(b.reviews, b.supersessions, id) :: Preceded(b'.reviews, b'.supersessions, id)
    ensures forall q | Succeeded(b.reviews, b.supersessions, q) :: Succeeded(b'.reviews, b'.supersessions, q)
  {
  }

  lemma NewActivationSound(b: Book, c: Change)
    requires Guarded(b, c) && DeliverySound(b) && c.Activate?
    ensures ActivationSound(Changed(b, c), c.id)
  {
    hide Changed;
    ChangedTables(b, c);
  }

  lemma DeliveryKept(b: Book, c: Change)
    requires Guarded(b, c) && DeliverySound(b)
    ensures DeliverySound(Changed(b, c))
  {
    hide ActivationSound, Changed;
    ChangedTables(b, c);
    var b' := Changed(b, c);
    forall id | id in b'.activations ensures ActivationSound(b', id) {
      if id in b.activations { ActivationStaysSound(b, c, id); } else { NewActivationSound(b, c); }
    }
  }

  lemma AcceptanceKept(b: Book, c: Change)
    requires Guarded(b, c) && AcceptanceSound(b)
    ensures AcceptanceSound(Changed(b, c))
  {
    hide DeliveryAuthority, ActivationSound, Changed;
    ChangedTables(b, c);
    var b' := Changed(b, c);
    forall id | id in b'.accepted ensures AcceptedSound(b', id) {
      ActivationStaysSound(b, c, id);
      if id in b.accepted { assert AcceptedSound(b, id); AcceptedStays(b, c, id); }
    }
    hide AcceptedSound;
  }

  lemma AcceptedStays(b: Book, c: Change, id: string)
    requires Guarded(b, c) && id in b.accepted && AcceptedSound(b, id) && ActivationSound(Changed(b, c), id)
    ensures id in Changed(b, c).accepted && AcceptedSound(Changed(b, c), id)
  {
    hide DeliveryAuthority, ActivationSound, Changed;
    ChangedTables(b, c);
  }

  lemma {:induction false} RunKeeps(ids: Identities, ops: seq<Op>)
    ensures Inv(Run(ids, EMPTY, ops))
  {
    hide Step, Guarded, Changed, Linked, DeliverySound, AcceptanceSound;
    if ops == [] {
      EmptyGood();
    } else {
      RunKeeps(ids, ops[..|ops| - 1]);
      var b := Run(ids, EMPTY, ops[..|ops| - 1]);
      var c := StepIsChange(ids, b, ops[|ops| - 1]);
      LinkedKept(b, c);
      DeliveryKept(b, c);
      AcceptanceKept(b, c);
    }
  }

  lemma EmptyGood()
    ensures Inv(EMPTY)
  {
  }

  // ------------------------------------------------------------ theorems

  /** Reviews each superseded by the next. */
  ghost predicate Path(b: Book, p: seq<string>) {
    && |p| > 0 && (forall i | 0 <= i < |p| :: p[i] in b.reviews)
    && (forall i | 0 <= i < |p| - 1 :: p[i] in b.supersessions && b.supersessions[p[i]].successor == p[i + 1])
  }

  lemma {:induction false} GenerationsCount(b: Book, p: seq<string>, i: nat)
    requires Linked(b) && Path(b, p) && i < |p|
    ensures b.reviews[p[i]].generation == b.reviews[p[0]].generation + i
  {
    if i > 0 {
      GenerationsCount(b, p, i - 1);
      assert p[i - 1] in b.supersessions && b.supersessions[p[i - 1]].successor == p[i];
      assert Succeeded(b.reviews, b.supersessions, p[i - 1]);
    }
  }

  /** In every reachable book, supersession paths are simple, their generations rise by one, no
      review has two predecessors, and on a path only its last review can have been accepted:
      along any path there is at most one posting attempt. */
  lemma SupersessionPathsAreSimple(ids: Identities, ops: seq<Op>, p: seq<string>)
    requires Path(Run(ids, EMPTY, ops), p)
    ensures var b := Run(ids, EMPTY, ops);
            && (forall i | 0 <= i < |p| :: b.reviews[p[i]].generation == b.reviews[p[0]].generation + i)
            && (forall i, j | 0 <= i < j < |p| :: p[i] != p[j])
            && (forall i | 0 <= i < |p| && p[i] in b.accepted :: i == |p| - 1)
            && (forall q, r | q in b.supersessions && r in b.supersessions
                              && b.supersessions[q].successor == b.supersessions[r].successor :: q == r)
  {
    hide Run, DeliverySound;
    RunKeeps(ids, ops);
    var b := Run(ids, EMPTY, ops);
    forall i | 0 <= i < |p| ensures b.reviews[p[i]].generation == b.reviews[p[0]].generation + i {
      GenerationsCount(b, p, i);
    }
  }

  /** In every reachable book, every review ends a path that starts at a first review of its card
      and is as long as its generation. */
  lemma EveryReviewHasItsPath(ids: Identities, ops: seq<Op>, id: string) returns (p: seq<string>)
    requires id in Run(ids, EMPTY, ops).reviews
    ensures var b := Run(ids, EMPTY, ops);
            && Path(b, p) && p[|p| - 1] == id && |p| == b.reviews[id].generation && b.reviews[p[0]].predecessor.None?
  {
    hide Run, DeliverySound, AcceptanceSound, Linked, Path;
    RunKeeps(ids, ops);
    p := PathTo(Run(ids, EMPTY, ops), id);
  }

  lemma {:induction false} PathTo(b: Book, id: string) returns (p: seq<string>)
    requires Linked(b) && id in b.reviews
    ensures Path(b, p) && p[|p| - 1] == id && |p| == b.reviews[id].generation && b.reviews[p[0]].predecessor.None?
    decreases b.reviews[id].generation
  {
    if b.reviews[id].predecessor.None? {
      p := [id];
    } else {
      var q := b.reviews[id].predecessor.value;
      assert Preceded(b.reviews, b.supersessions, id);
      assert Succeeded(b.reviews, b.supersessions, q);
      var front := PathTo(b, q);
      p := front + [id];
      PathExtends(b, front, id);
    }
  }

  lemma PathExtends(b: Book, p: seq<string>, id: string)
    requires Path(b, p) && id in b.reviews && p[|p| - 1] in b.supersessions
             && b.supersessions[p[|p| - 1]].successor == id
    ensures Path(b, p + [id])
  {
    var q := p + [id];
    forall i | 0 <= i < |q| - 1 ensures q[i] in b.supersessions && b.supersessions[q[i]].successor == q[i + 1] {
      if i < |p| - 1 { assert p[i] in b.supersessions && b.supersessions[p[i]].successor == p[i + 1]; }
    }
  }

  /** In every reachable book an accepted review keeps valid delivery authority, whichever of the
      conflicts that arrived since the join returns. */
  lemma AcceptedKeepsAuthority(ids: Identities, ops: seq<Op>, id: string, c: Option<Conflict>)
    requires id in Run(ids, EMPTY, ops).accepted && Joined(Run(ids, EMPTY, ops), id, c)
    ensures var b := Run(ids, EMPTY, ops);
            && id in b.reviews && id in b.deliveries && id in b.activations && b.activations[id].token in b.observations
            && var a := b.activations[id];
            DeliveryAuthority(b.reviews[id], b.deliveries[id], a, a.token, b.observations[a.token], c,
                              Some(b.accepted[id].acceptedAt), true)
  {
    hide Run, Linked, DeliverySound;
    RunKeeps(ids, ops);
    assert ActivationSound(Run(ids, EMPTY, ops), id);
  }

  /** A redeemed Confirm reference belongs to exactly the acceptance it made. */
  lemma RedemptionsAreAcceptances(ids: Identities, ops: seq<Op>, j: string, k: string)
    requires var b := Run(ids, EMPTY, ops);
             j in b.redemptions && k in b.redemptions && j in b.bindings && k in b.bindings
             && b.bindings[j] == b.bindings[k]
    ensures j == k && Run(ids, EMPTY, ops).bindings[j] in Run(ids, EMPTY, ops).accepted
  {
    hide Run, Linked, DeliverySound;
    RunKeeps(ids, ops);
  }
}
