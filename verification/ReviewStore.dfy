/** The review transactions as they run against their tables. */
module ReviewStores {
  import opened Prelude
  import opened ReviewBook
  import opened ReviewRuns

  class ReviewStore {
    const ids: Identities
    var book: Book

    constructor (ids: Identities)
      ensures this.ids == ids && book == EMPTY && Inv(book)
    {
      this.ids := ids;
      book := EMPTY;
      new;
      EmptyGood();
    }

    /** Stores a receipt nobody has seen: it activates the review or records a conflict. */
    method ObserveReceipt(x: Receipt, review: string, cardFresh: bool) returns (r: Result<string, Refusal>)
      requires review in book.deliveries && review in book.reviews
      modifies this
      ensures book == Observe(ids, old(book), x, review, cardFresh).0
              && r == Observe(ids, old(book), x, review, cardFresh).1
    {
      hide Current, ObservationInsertable, SameMessage;
      var delivery := book.deliveries[review];
      var active := review in book.activations;
      var id := ids.observation(delivery.id, x.message, x.material, x.token);
      var o := Observation(id, delivery.id, if active then Conflicting else Success,
                           x.message, x.material, x.source, x.place, book.now);
      if !ObservationInsertable(book, o) { return Err(IdentityCollision); }
      if active {
        var c := Conflict(id, book.activations[review].message, x.message, x.token, book.now);
        book := book.(observations := book.observations[x.token := o],
                      conflicts := book.conflicts[review := Rows(book.conflicts, review) + [c]]);
        return Err(MultipleMessages);
      }
      if !Current(book, review, book.reviews[review], cardFresh) { return Err(NotCurrent); }
      if exists k | k in book.activations :: SameMessage(book.activations[k], x) { return Err(IdentityCollision); }
      var a := Activation(delivery.id, id, x.message, x.material, x.token, x.source, x.place, book.now);
      book := book.(observations := book.observations[x.token := o], activations := book.activations[review := a]);
      return Ok(id);
    }

    /** Consumes one verified host receipt: activates, replays or records a conflict. */
    method RecordDelivery(x: Receipt, cardFresh: bool) returns (r: Result<string, Refusal>)
      modifies this
      ensures book == Record(ids, old(book), x, cardFresh).0 && r == Record(ids, old(book), x, cardFresh).1
      ensures Grows(old(book), book) && (Inv(old(book)) ==> Inv(book))
    {
      hide Observe, Inv, Grows;
      StepSound(ids, book, DoRecord(x, cardFresh));
      if x.nonce !in book.nonces { return Err(NotFound); }
      var review := book.nonces[x.nonce];
      if review !in book.deliveries || review !in book.reviews { return Err(NotFound); }
      var delivery := book.deliveries[review];
      if delivery.context.place != x.place || delivery.material != x.material { return Err(ReceiptMismatch); }
      if x.token in book.observations {
        var owner := book.observations[x.token];
        if owner.deliveryId == delivery.id && owner.message == x.message && owner.material == x.material
            && owner.source == x.source {
          return Ok(owner.id);
        }
        return Err(TokenConsumed);
      }
      if review in book.activations && book.activations[review].message == x.message {
        var a := book.activations[review];
        if a.material == x.material && a.source == x.source { return Ok(a.observationId); }
        return Err(ReplayConflict);
      }
      r := ObserveReceipt(x, review, cardFresh);
    }

    method ReplaceReview(pred: string, key: string, material: string, reason: Reason, context: Context)
      returns (r: Result<string, Refusal>)
      modifies this
      ensures book == Step(ids, old(book), DoReplace(pred, key, material, reason, context))
      ensures r.Ok? <==> Replace(ids, old(book), pred, key, material, reason, context).Ok?
      ensures r.Ok? ==>
                pred in book.supersessions && book.supersessions[pred] == Supersession(r.value, key, material, reason)
      ensures Grows(old(book), book) && (Inv(old(book)) ==> Inv(book))
    {
      hide ReviewInsertable, SuccessorOf, Inv, Grows;
      StepSound(ids, book, DoReplace(pred, key, material, reason, context));
      if pred !in book.reviews { return Err(NotFound); }
      var predecessor := book.reviews[pred];
      if predecessor.context != context { return Err(ContextMismatch); }
      if pred in book.accepted { return Err(AlreadyAccepted); }
      var successor := ids.successor(pred, key, material);
      if pred in book.supersessions {
        if book.supersessions[pred] != Supersession(successor, key, material, reason) { return Err(SwapConflict); }
        return Ok(successor);
      }
      if exists k | k in book.supersessions ::
        book.supersessions[k].key == key || book.supersessions[k].successor == successor {
        return Err(SwapConflict);
      }
      var next := SuccessorOf(book, pred, predecessor, key);
      if !ReviewInsertable(book, successor, next) { return Err(IdentityCollision); }
      book := book.(reviews := book.reviews[successor := next],
                    supersessions := book.supersessions[pred := Supersession(successor, key, material, reason)]);
      return Ok(successor);
    }

    /** Redeems a Confirm: only the first valid callback writes, and it writes the redemption, the
        decided proposal and the acceptance together. */
    method ConfirmReview(x: Callback, row: nat, referenceFresh: bool, cardFresh: bool, payerActive: bool)
      returns (r: Result<Acceptance, Refusal>)
      modifies this
      ensures book == Step(ids, old(book), DoConfirm(x, row, referenceFresh, cardFresh, payerActive))
      ensures r.Ok? ==> x.reference in book.bindings && book.bindings[x.reference] in book.accepted
                        && r.value == book.accepted[book.bindings[x.reference]]
      ensures Grows(old(book), book) && (Inv(old(book)) ==> Inv(book))
      ensures Inv(old(book)) && r.Err? ==> book == old(book)
    {
      hide Confirmable, Inv, Grows, PickConflict;
      StepSound(ids, book, DoConfirm(x, row, referenceFresh, cardFresh, payerActive));
      RedeemedIsAccepted(book, x.reference);
      if x.reference in book.redemptions {
        if book.redemptions[x.reference] != Redemption(x.id, x.message) || x.reference !in book.bindings
           || book.bindings[x.reference] !in book.reviews
           || book.reviews[book.bindings[x.reference]].context != x.context
           || book.bindings[x.reference] !in book.accepted
        {
          return Err(ReferenceReplayed);
        }
        return Ok(book.accepted[book.bindings[x.reference]]);
      }
      var c := if x.reference in book.bindings then PickConflict(book, book.bindings[x.reference], row) else None;
      if !Confirmable(book, x, c, referenceFresh, cardFresh, payerActive) { return Err(ConfirmRefused); }
      ConfirmableFinds(book, x, c, referenceFresh, cardFresh, payerActive);
      var id := book.bindings[x.reference];
      var review := book.reviews[id];
      var acceptance := Acceptance(x.reference, ids.attempt(id, x.reference), book.now);
      book := book.(redemptions := book.redemptions[x.reference := Redemption(x.id, x.message)],
                    proposals := book.proposals[review.proposal := book.proposals[review.proposal].(pending := false)],
                    accepted := book.accepted[id := acceptance]);
      return Ok(acceptance);
    }
  }

  lemma StepSound(ids: Identities, b: Book, op: Op)
    ensures Grows(b, Step(ids, b, op)) && (Inv(b) ==> Inv(Step(ids, b, op)))
  {
    hide Step, Grows, Guarded, Changed, Linked, DeliverySound, AcceptanceSound;
    StepGrows(ids, b, op);
    var c := StepIsChange(ids, b, op);
    if Inv(b) {
      LinkedKept(b, c);
      DeliveryKept(b, c);
      AcceptanceKept(b, c);
    }
  }

  lemma RedeemedIsAccepted(b: Book, reference: string)
    ensures Inv(b) && reference in b.redemptions ==> reference in b.bindings && b.bindings[reference] in b.accepted
  {
    hide Linked, DeliverySound;
  }

  lemma ConfirmableFinds(b: Book, x: Callback, c: Option<Conflict>, ref: bool, card: bool, payer: bool)
    requires Confirmable(b, x, c, ref, card, payer)
    ensures x.reference in b.bindings && b.bindings[x.reference] in b.reviews
            && b.reviews[b.bindings[x.reference]].proposal in b.proposals
  {
  }
}
