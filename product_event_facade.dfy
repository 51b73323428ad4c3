/**
 * The catalog event facade: one raw broker message in, one processing
 * result out, with the product events reconciled against the stored carts.
 * The parsed envelope and the typed payloads are inputs (`None` where the
 * payload deserialises to null).
 */
module ProductEventFacade {
  import opened Wrappers
  import opened Entities
  import opened CartStore
  import opened ProductRefresh
  import opened ProductRemoval
  import Repo = CartRepository

  const ProductDeleted: string := "ProductDeletedEvent"
  const ProductUpdated: string := "ProductUpdatedEvent"
  const CategoryUpdated: string := "CategoryUpdatedEvent"

  /** The routing fields read from the raw message; absent fields are `None`. */
  datatype EventEnvelope = EventEnvelope(
    eventType: Option<string>,
    productId: Option<Guid>,
    categoryId: Option<Guid>,
    rawJson: string)

  /** The payload of a product update; a missing `productId` reads as the empty id. */
  datatype ProductUpdatedMessage = ProductUpdatedMessage(
    productId: Guid,
    name: Option<string>,
    price: Option<real>,
    categoryId: Option<Guid>)

  datatype CategoryUpdatedMessage = CategoryUpdatedMessage(
    categoryId: Guid,
    name: Option<string>,
    eventId: Guid,
    occurredOnUtc: Timestamp,
    eventType: Option<string>,
    version: int)

  datatype ProcessingResult = ProcessingResult(
    eventType: Option<string>,
    success: bool,
    affectedCarts: int,
    error: Option<string>)

  function Failed(eventType: Option<string>, error: string): ProcessingResult {
    ProcessingResult(eventType, false, 0, Some(error))
  }

  function Succeeded(eventType: string, affected: nat): ProcessingResult {
    ProcessingResult(Some(eventType), true, affected, None)
  }

  /** A product deletion: needs the envelope's product id, then removes that product everywhere. */
  function DeletedOutcome(env: EventEnvelope, carts: seq<Cart>): (r: (seq<Cart>, ProcessingResult))
    ensures r.1.eventType == Some(ProductDeleted)
    ensures r.1.success <==> env.productId.Some?
    ensures env.productId.None? ==> r.0 == carts && r.1 == ProcessingResult(Some(ProductDeleted), false, 0, Some("productId missing"))
    ensures env.productId.Some? ==>
      && |r.0| == |carts| && r.1.error.None? && r.1.affectedCarts == DiffCount(carts, r.0)
      && forall k :: 0 <= k < |r.0| ==> r.0[k].id == carts[k].id && !HasProduct(r.0[k].items, env.productId.value)
  {
    if env.productId.None? then (carts, Failed(Some(ProductDeleted), "productId missing"))
    else
      var (after, affected) := RemoveEffect(carts, env.productId.value);
      (after, Succeeded(ProductDeleted, affected))
  }

  /** A product update: needs a payload, then refreshes by the payload's own product id. */
  function UpdatedOutcome(msg: Option<ProductUpdatedMessage>, carts: seq<Cart>): (r: (seq<Cart>, ProcessingResult))
    ensures r.1.eventType == Some(ProductUpdated)
    ensures r.1.success <==> msg.Some?
    ensures msg.None? ==> r.0 == carts && r.1 == ProcessingResult(Some(ProductUpdated), false, 0, Some("Invalid payload"))
    ensures msg.Some? ==>
      && |r.0| == |carts| && r.1.error.None? && r.1.affectedCarts == DiffCount(carts, r.0)
      && forall k :: 0 <= k < |r.0| ==> r.0[k].id == carts[k].id
  {
    if msg.None? then (carts, Failed(Some(ProductUpdated), "Invalid payload"))
    else
      var (after, affected) := UpdateEffect(carts, msg.value.productId, SkipNullOrEmpty, msg.value.name, msg.value.price);
      (after, Succeeded(ProductUpdated, affected))
  }

  /** A category update: needs a payload, and only acknowledges it. */
  function CategoryOutcome(msg: Option<CategoryUpdatedMessage>, carts: seq<Cart>): (r: (seq<Cart>, ProcessingResult))
    ensures r.0 == carts && r.1.affectedCarts == 0 && r.1.eventType == Some(CategoryUpdated)
    ensures r.1.success <==> msg.Some?
    ensures msg.None? ==> r.1.error == Some("Invalid payload")
  {
    if msg.None? then (carts, Failed(Some(CategoryUpdated), "Invalid payload"))
    else (carts, Succeeded(CategoryUpdated, 0))
  }

  /**
   * One message end to end: the new carts and the result. The result always
   * echoes the envelope's event type; a failure touches no cart, reports
   * no carts and carries an error; a success carries none; and it succeeds
   * exactly for the three known types with their payload present.
   */
  function Outcome(env: EventEnvelope, update: Option<ProductUpdatedMessage>,
                   category: Option<CategoryUpdatedMessage>, carts: seq<Cart>): (r: (seq<Cart>, ProcessingResult))
    ensures r.1.eventType == env.eventType
    ensures !r.1.success ==> r.0 == carts && r.1.affectedCarts == 0 && r.1.error.Some?
    ensures r.1.success ==> r.1.error.None? && r.1.affectedCarts >= 0
    ensures r.1.success <==>
      || (env.eventType == Some(ProductDeleted) && env.productId.Some?)
      || (env.eventType == Some(ProductUpdated) && update.Some?)
      || (env.eventType == Some(CategoryUpdated) && category.Some?)
  {
    if env.eventType.None? then (carts, Failed(None, "Missing eventType"))
    else
      var t := env.eventType.value;
      if t == ProductDeleted then DeletedOutcome(env, carts)
      else if t == ProductUpdated then UpdatedOutcome(update, carts)
      else if t == CategoryUpdated then CategoryOutcome(category, carts)
      else (carts, Failed(Some(t), "Unhandled eventType"))
  }

  /** A message without an event type is rejected with no type echoed. */
  lemma MissingTypeRejected(env: EventEnvelope, update: Option<ProductUpdatedMessage>,
                            category: Option<CategoryUpdatedMessage>, carts: seq<Cart>)
    requires env.eventType.None?
    ensures Outcome(env, update, category, carts) == (carts, ProcessingResult(None, false, 0, Some("Missing eventType")))
  {
  }

  /** An unknown event type is rejected, echoing the type. */
  lemma UnknownTypeRejected(env: EventEnvelope, update: Option<ProductUpdatedMessage>,
                            category: Option<CategoryUpdatedMessage>, carts: seq<Cart>)
    requires env.eventType.Some?
    requires env.eventType.value !in {ProductDeleted, ProductUpdated, CategoryUpdated}
    ensures Outcome(env, update, category, carts) == (carts, ProcessingResult(env.eventType, false, 0, Some("Unhandled eventType")))
  {
  }

  /** The reported count is exactly the number of carts whose stored contents changed. */
  lemma AffectedIsCartsChanged(env: EventEnvelope, update: Option<ProductUpdatedMessage>,
                               category: Option<CategoryUpdatedMessage>, carts: seq<Cart>)
    ensures var (after, result) := Outcome(env, update, category, carts);
      |after| == |carts| && result.affectedCarts == DiffCount(carts, after)
  {
    if env.eventType == Some(ProductDeleted) && env.productId.Some? {
      ProductRemoval.CountIsCartsChanged(carts, env.productId.value);
    } else if env.eventType == Some(ProductUpdated) && update.Some? {
      var m := update.value;
      ProductRefresh.CountIsCartsChanged(carts, m.productId, SkipNullOrEmpty, m.name, m.price);
    }
  }

  /**
   * Redelivery is harmless: processing the same message again on the carts
   * it produced changes nothing and reports no carts, with the same verdict.
   */
  lemma RedeliveryIdempotent(env: EventEnvelope, update: Option<ProductUpdatedMessage>,
                             category: Option<CategoryUpdatedMessage>, carts: seq<Cart>)
    ensures var (once, first) := Outcome(env, update, category, carts);
      Outcome(env, update, category, once) == (once, first.(affectedCarts := 0))
  {
    if env.eventType == Some(ProductDeleted) && env.productId.Some? {
      RemoveIdempotent(carts, env.productId.value);
    } else if env.eventType == Some(ProductUpdated) && update.Some? {
      var m := update.value;
      UpdateIdempotent(carts, m.productId, SkipNullOrEmpty, m.name, m.price);
    }
  }

  /** A category event never changes a cart, whatever its payload. */
  lemma CategoryLeavesCarts(env: EventEnvelope, update: Option<ProductUpdatedMessage>,
                            category: Option<CategoryUpdatedMessage>, carts: seq<Cart>)
    requires env.eventType == Some(CategoryUpdated)
    ensures Outcome(env, update, category, carts).0 == carts
    ensures Outcome(env, update, category, carts).1.affectedCarts == 0
  {
  }

  /** An update payload with neither name nor price succeeds and changes nothing. */
  lemma EmptyUpdateIsNoOp(env: EventEnvelope, productId: Guid, categoryId: Option<Guid>,
                          category: Option<CategoryUpdatedMessage>, carts: seq<Cart>)
    requires env.eventType == Some(ProductUpdated)
    ensures Outcome(env, Some(ProductUpdatedMessage(productId, None, None, categoryId)), category, carts)
      == (carts, ProcessingResult(Some(ProductUpdated), true, 0, None))
  {
    NoFieldsNoChange(carts, productId, SkipNullOrEmpty);
  }

  /** After a deletion no cart holds the product; every cart keeps its id and position. */
  lemma DeletionRemovesProduct(env: EventEnvelope, update: Option<ProductUpdatedMessage>,
                               category: Option<CategoryUpdatedMessage>, carts: seq<Cart>)
    requires env.eventType == Some(ProductDeleted) && env.productId.Some?
    ensures var after := Outcome(env, update, category, carts).0;
      && |after| == |carts|
      && (forall k :: 0 <= k < |after| ==> after[k].id == carts[k].id)
      && (forall k :: 0 <= k < |after| ==> !HasProduct(after[k].items, env.productId.value))
  {
  }

  /** An update is routed by its payload: the envelope's product id plays no part. */
  lemma UpdateIgnoresEnvelopeProductId(env: EventEnvelope, other: Option<Guid>, update: Option<ProductUpdatedMessage>,
                                       category: Option<CategoryUpdatedMessage>, carts: seq<Cart>)
    requires env.eventType == Some(ProductUpdated)
    ensures Outcome(env.(productId := other), update, category, carts) == Outcome(env, update, category, carts)
  {
  }

  /** `ProductEventFacade`, holding the cart repository its update service forwards to. */
  class ProductEventFacade {
    const repository: Repo.CartRepository

    constructor (repo: Repo.CartRepository)
      ensures repository == repo
    {
      repository := repo;
    }

    ghost predicate Valid()
      reads this, repository, repository.carts
    {
      repository.Valid()
    }

    method HandleProductDeleted(env: EventEnvelope) returns (result: ProcessingResult)
      requires Valid()
      modifies repository.carts
      ensures Valid()
      ensures (repository.carts.docs, result) == DeletedOutcome(env, old(repository.carts.docs))
    {
      if env.productId.None? {
        return Failed(Some(ProductDeleted), "productId missing");
      }
      var affected := repository.RemoveProduct(env.productId.value);
      return Succeeded(ProductDeleted, affected);
    }

    method HandleProductUpdated(msg: Option<ProductUpdatedMessage>) returns (result: ProcessingResult)
      requires Valid()
      modifies repository.carts
      ensures Valid()
      ensures (repository.carts.docs, result) == UpdatedOutcome(msg, old(repository.carts.docs))
    {
      if msg.None? {
        return Failed(Some(ProductUpdated), "Invalid payload");
      }
      var m := msg.value;
      var affected := repository.UpdateProductInfo(m.productId, m.name, m.price, m.categoryId);
      return Succeeded(ProductUpdated, affected);
    }

    method HandleCategoryUpdated(msg: Option<CategoryUpdatedMessage>) returns (result: ProcessingResult)
      ensures result == CategoryOutcome(msg, repository.carts.docs).1
    {
      if msg.None? {
        return Failed(Some(CategoryUpdated), "Invalid payload");
      }
      return Succeeded(CategoryUpdated, 0);
    }

    /** Dispatches on the envelope's event type. */
    method ProcessAsync(env: EventEnvelope, update: Option<ProductUpdatedMessage>,
                        category: Option<CategoryUpdatedMessage>) returns (result: ProcessingResult)
      requires Valid()
      modifies repository.carts
      ensures Valid()
      ensures (repository.carts.docs, result) == Outcome(env, update, category, old(repository.carts.docs))
    {
      if env.eventType.None? {
        return Failed(None, "Missing eventType");
      }
      var t := env.eventType.value;
      if t == ProductDeleted {
        result := HandleProductDeleted(env);
      } else if t == ProductUpdated {
        result := HandleProductUpdated(update);
      } else if t == CategoryUpdated {
        result := HandleCategoryUpdated(category);
      } else {
        result := Failed(Some(t), "Unhandled eventType");
      }
    }
  }
}
