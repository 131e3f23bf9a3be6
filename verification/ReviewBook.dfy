/** Posting reviews from preparation to acceptance: delivery attempts, provider receipts,
    activation and conflict, supersession, and the one-time Confirm. */
module ReviewBook {
  import opened Prelude

  datatype Refusal =
    | Malformed | NotFound | ContextMismatch | NotCurrent | BindingConflict | IdempotencyConflict | IdentityCollision
    | ReceiptMismatch | TokenConsumed | ReplayConflict | MultipleMessages | AlreadyAccepted | SwapConflict
    | ReferenceReplayed | ConfirmRefused

  datatype Place = Place(account: string, conversation: string, binding: string)

  datatype Context = Context(actor: string, place: Place)

  datatype Card = HumanCard(id: string) | InitialCard(id: string)

  datatype Reason = DeliveryUnknown | DeliveryConflict | Expired

  /** A proposal as the parser keeps it; a decided proposal is no longer pending. */
  datatype Proposal = Proposal(pending: bool, version: nat, contentHash: string)

  datatype Review = Review(
    key: string, card: Card, generation: nat, predecessor: Option<string>, proposal: string,
    proposalVersion: nat, contentHash: string, projection: string, context: Context, expiresAt: int)

  datatype Delivery = Delivery(id: string, nonce: string, material: string, context: Context)

  datatype Outcome = Success | Conflicting

  datatype Observation = Observation(
    id: string, deliveryId: string, outcome: Outcome, message: nat, material: string, source: string, place: Place,
      at: int)

  datatype Activation = Activation(
    deliveryId: string, observationId: string, message: nat, material: string, token: string, source: string,
      place: Place, at: int)

  datatype Conflict = Conflict(observationId: string, activatedMessage: nat, message: nat, token: string, at: int)

  datatype Supersession = Supersession(successor: string, key: string, material: string, reason: Reason)

  datatype Redemption = Redemption(callback: string, message: nat)

  datatype Acceptance = Acceptance(reference: string, attemptId: string, acceptedAt: int)

  /** One table per map: deliveries, activations, conflicts, supersessions and acceptances by
      review, observations by receipt token, redemptions by Confirm reference. */
  datatype Book = Book(
    now: int, proposals: map<string, Proposal>, reviews: map<string, Review>, bindings: map<string, string>,
    deliveries: map<string, Delivery>, nonces: map<string, string>, observations: map<string, Observation>,
    activations: map<string, Activation>, conflicts: map<string, seq<Conflict>>,
    supersessions: map<string, Supersession>, redemptions: map<string, Redemption>, accepted: map<string, Acceptance>)

  const EMPTY := Book(0, map[], map[], map[], map[], map[], map[], map[], map[], map[], map[], map[])

  /** Deterministic identities; two inputs may in principle share one, and inserts check that. */
  datatype Identities = Identities(
    observation: (string, nat, string, string) -> string,
    successor: (string, string, string) -> string,
    attempt: (string, string) -> string)

  // ---------------------------------------------------------- authority

  /** `_has_valid_delivery_authority` on one joined row; the join may pick any conflict row. */
  predicate DeliveryAuthority(r: Review, delivery: Delivery, a: Activation, token: string, o: Observation,
                              conflict: Option<Conflict>, acceptedAt: Option<int>, allowLater: bool)
  {
    && (conflict.Some? ==> allowLater && acceptedAt.Some? && acceptedAt.value <= conflict.value.at)
    && delivery.context == r.context
    && a.deliveryId == delivery.id && a.place == delivery.context.place
    && o.id == a.observationId && o.deliveryId == delivery.id && o.outcome == Success
    && o.message == a.message && o.place == a.place
    && delivery.material == a.material && delivery.material == o.material
    && a.token == token && a.source == o.source
  }

  /** The conflict rows a left join can offer: one of the review's, or none if it has none. */
  predicate Joined(b: Book, review: string, c: Option<Conflict>) {
    if c.None? then Rows(b.conflicts, review) == [] else c.value in Rows(b.conflicts, review)
  }

  predicate Current(b: Book, id: string, r: Review, cardFresh: bool) {
    && id !in b.supersessions
    && b.now < r.expiresAt
    && r.proposal in b.proposals
    && b.proposals[r.proposal] == Proposal(true, r.proposalVersion, r.contentHash)
    && cardFresh
  }

  // ------------------------------------------------------------- prepare

  predicate ReviewInsertable(b: Book, id: string, r: Review) {
    && id !in b.reviews
    && forall k | k in b.reviews ::
         && b.reviews[k].key != r.key
         && !(b.reviews[k].card == r.card && b.reviews[k].generation == r.generation)
         && (r.predecessor.Some? ==> b.reviews[k].predecessor != r.predecessor)
  }

  /** A first review of a card: generation one, no predecessor. */
  function Prepare(b: Book, id: string, r: Review): Result<Book, Refusal> {
    if r.generation != 1 || r.predecessor.Some? then Err(Malformed)
    else if id in b.reviews then (if b.reviews[id] == r then Ok(b) else Err(IdempotencyConflict))
    else if !ReviewInsertable(b, id, r) then Err(IdentityCollision)
    else Ok(b.(reviews := b.reviews[id := r]))
  }

  function Begin(b: Book, id: string, reference: string, delivery: Delivery, cardFresh: bool): Result<Book, Refusal> {
    if id !in b.reviews then Err(NotFound)
    else
      var r := b.reviews[id];
      if delivery.context != r.context then Err(ContextMismatch)
      else if !Current(b, id, r, cardFresh) || r.expiresAt - b.now < 60 then Err(NotCurrent)
      else if (reference in b.bindings && b.bindings[reference] != id)
          || (reference !in b.bindings && id in b.bindings.Values)
      then Err(BindingConflict)
      else
        var bound := b.(bindings := b.bindings[reference := id]);
        if id in b.deliveries then
          (if b.deliveries[id] == delivery then Ok(bound) else Err(IdempotencyConflict))
        else if delivery.nonce in b.nonces || exists k | k in b.deliveries :: b.deliveries[k].id == delivery.id
        then Err(IdentityCollision)
        else Ok(bound.(deliveries := b.deliveries[id := delivery], nonces := b.nonces[delivery.nonce := id]))
  }

  // -------------------------------------------------------------- record

  datatype Receipt = Receipt(nonce: string, place: Place, material: string, token: string, source: string, message: nat)

  predicate ObservationInsertable(b: Book, o: Observation) {
    forall t | t in b.observations ::
      b.observations[t].id != o.id
      && !(b.observations[t].deliveryId == o.deliveryId && b.observations[t].message == o.message)
  }

  predicate SameMessage(a: Activation, x: Receipt) {
    a.place.account == x.place.account && a.place.conversation == x.place.conversation && a.message == x.message
  }

  /** A new receipt for `review`: its first message activates it, any other is a conflict, which
      is recorded and reported as an error. */
  function Observe(ids: Identities, b: Book, x: Receipt, review: string, cardFresh: bool)
    : (Book, Result<string, Refusal>)
    requires review in b.deliveries && review in b.reviews
  {
    var delivery := b.deliveries[review];
    var id := ids.observation(delivery.id, x.message, x.material, x.token);
    var outcome := if review in b.activations then Conflicting else Success;
    var o := Observation(id, delivery.id, outcome, x.message, x.material, x.source, x.place, b.now);
    var seen := b.observations[x.token := o];
    if !ObservationInsertable(b, o) then (b, Err(IdentityCollision))
    else if review in b.activations then
      var c := Conflict(id, b.activations[review].message, x.message, x.token, b.now);
      (b.(observations := seen, conflicts := b.conflicts[review := Rows(b.conflicts, review) + [c]]),
        Err(MultipleMessages))
    else if !Current(b, review, b.reviews[review], cardFresh) then (b, Err(NotCurrent))
    else if exists k | k in b.activations :: SameMessage(b.activations[k], x) then (b, Err(IdentityCollision))
    else
      var a := Activation(delivery.id, id, x.message, x.material, x.token, x.source, x.place, b.now);
      (b.(observations := seen, activations := b.activations[review := a]), Ok(id))
  }

  /** What one verified host receipt does: the book it leaves and the observation it reports. */
  function Record(ids: Identities, b: Book, x: Receipt, cardFresh: bool): (Book, Result<string, Refusal>) {
    if x.nonce !in b.nonces || b.nonces[x.nonce] !in b.deliveries || b.nonces[x.nonce] !in b.reviews
      then (b, Err(NotFound))
    else
      var review := b.nonces[x.nonce];
      var delivery := b.deliveries[review];
      if delivery.context.place != x.place || delivery.material != x.material then (b, Err(ReceiptMismatch))
      else if x.token in b.observations then
        var o := b.observations[x.token];
        if o.deliveryId == delivery.id && o.message == x.message && o.material == x.material && o.source == x.source
        then (b, Ok(o.id)) else (b, Err(TokenConsumed))
      else if review in b.activations && b.activations[review].message == x.message then
        var a := b.activations[review];
        if a.material == x.material && a.source == x.source then (b, Ok(a.observationId)) else (b, Err(ReplayConflict))
      else Observe(ids, b, x, review, cardFresh)
  }

  // ------------------------------------------------------------- replace

  function Max(x: int, y: int): int { if x < y then y else x }
  function Min(x: int, y: int): int { if x < y then x else y }

  function SuccessorOf(b: Book, pred: string, r: Review, key: string): Review {
    r.(key := "replacement:" + key, generation := r.generation + 1, predecessor := Some(pred),
       expiresAt := b.now + Min(3600, Max(60, r.expiresAt - b.now)))
  }

  function Replace(ids: Identities, b: Book, pred: string, key: string, material: string, reason: Reason,
                   context: Context)
    : Result<Book, Refusal>
  {
    if pred !in b.reviews then Err(NotFound)
    else
      var r := b.reviews[pred];
      var succ := ids.successor(pred, key, material);
      if r.context != context then Err(ContextMismatch)
      else if pred in b.accepted then Err(AlreadyAccepted)
      else if pred in b.supersessions then
        (if b.supersessions[pred] == Supersession(succ, key, material, reason) then Ok(b)
         else Err(SwapConflict))
      else if exists k | k in b.supersessions :: b.supersessions[k].key == key || b.supersessions[k].successor == succ
      then Err(SwapConflict)
      else
        var next := SuccessorOf(b, pred, r, key);
        if !ReviewInsertable(b, succ, next) then Err(IdentityCollision)
        else Ok(b.(reviews := b.reviews[succ := next],
                   supersessions := b.supersessions[pred := Supersession(succ, key, material, reason)]))
  }

  // ------------------------------------------------------------- confirm

  datatype Callback = Callback(reference: string, id: string, message: nat, context: Context)

  /** Everything the redemption transaction checks before it accepts; the conflict row `c` is
      whichever one the join returned. */
  predicate Confirmable(b: Book, x: Callback, c: Option<Conflict>, referenceFresh: bool, cardFresh: bool,
                        payerActive: bool) {
    && x.reference in b.bindings && referenceFresh && payerActive
    && (forall k | k in b.redemptions :: b.redemptions[k].callback != x.id)
    && var id := b.bindings[x.reference];
    && id in b.reviews && id in b.deliveries && id in b.activations && b.activations[id].token in b.observations
    && var r := b.reviews[id];
    var a := b.activations[id];
    && r.context == x.context
    && DeliveryAuthority(r, b.deliveries[id], a, a.token, b.observations[a.token], c, None, false)
    && a.message == x.message
    && Current(b, id, r, cardFresh)
    && id !in b.accepted
  }

  function Confirm(ids: Identities, b: Book, x: Callback, c: Option<Conflict>, referenceFresh: bool, cardFresh: bool,
                   payerActive: bool)
    : Result<Book, Refusal>
    requires x.reference in b.bindings ==> Joined(b, b.bindings[x.reference], c)
  {
    if x.reference in b.redemptions then
      (if b.redemptions[x.reference] == Redemption(x.id, x.message) && x.reference in b.bindings
          && b.bindings[x.reference] in b.reviews && b.reviews[b.bindings[x.reference]].context == x.context
       then Ok(b) else Err(ReferenceReplayed))
    else if !Confirmable(b, x, c, referenceFresh, cardFresh, payerActive) then Err(ConfirmRefused)
    else
      var id := b.bindings[x.reference];
      var r := b.reviews[id];
      Ok(b.(redemptions := b.redemptions[x.reference := Redemption(x.id, x.message)],
            proposals := b.proposals[r.proposal := b.proposals[r.proposal].(pending := false)],
            accepted := b.accepted[id := Acceptance(x.reference, ids.attempt(id, x.reference), b.now)]))
  }

  // ---------------------------------------------------------------- runs

  datatype Op =
    | DoPrepare(id: string, review: Review)
    | DoBegin(id: string, reference: string, delivery: Delivery, cardFresh: bool)
    | DoRecord(receipt: Receipt, cardFresh: bool)
    | DoReplace(pred: string, key: string, material: string, reason: Reason, context: Context)
    | DoConfirm(callback: Callback, row: nat, referenceFresh: bool, cardFresh: bool, payerActive: bool)
    | ProposalChanges(proposal: string, value: Proposal)
    | Wait(seconds: nat)
    | Crash

  /** The conflict row a join returns when it happens to return row `i`. */
  function PickConflict(b: Book, review: string, i: nat): (c: Option<Conflict>)
    ensures Joined(b, review, c)
  {
    var rows := Rows(b.conflicts, review);
    if rows == [] then None else Some(rows[i % |rows|])
  }

  function Step(ids: Identities, b: Book, op: Op): Book {
    match op
    case DoPrepare(id, r) => (match Prepare(b, id, r) case Ok(x) => x case Err(_) => b)
    case DoBegin(id, reference, d, fresh') =>
      (match Begin(b, id, reference, d, fresh') case Ok(x) => x case Err(_) => b)
    case DoRecord(x, fresh') => Record(ids, b, x, fresh').0
    case DoReplace(pred, key, material, reason, context) =>
      (match Replace(ids, b, pred, key, material, reason, context) case Ok(x) => x case Err(_) => b)
    case DoConfirm(x, row, ref, card, payer) =>
      var c := if x.reference in b.bindings then PickConflict(b, b.bindings[x.reference], row) else None;
      (match Confirm(ids, b, x, c, ref, card, payer) case Ok(y) => y case Err(_) => b)
    case ProposalChanges(p, v) => b.(proposals := b.proposals[p := v])
    case Wait(s) => b.(now := b.now + s)
    case Crash => b
  }

  function Run(ids: Identities, b: Book, ops: seq<Op>): Book {
    if ops == [] then b else Step(ids, Run(ids, b, ops[..|ops| - 1]), ops[|ops| - 1])
  }
}
