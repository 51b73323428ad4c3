/**
 * What `RemoveProduct` does to the stored carts, as functions of the carts
 * before the call: every copy of the product leaves every cart, the other
 * lines keep their order, and the carts that lost lines are counted.
 */
module ProductRemoval {
  import opened Entities
  import opened CartStore

  /** `items.Where(i => i.ProductId != productId)`. */
  function Without(items: seq<CartItem>, productId: Guid): (r: seq<CartItem>)
    ensures |r| <= |items|
    ensures forall x :: x in r <==> x in items && x.productId != productId
    ensures |r| == |items| <==> !HasProduct(items, productId)
    ensures !HasProduct(items, productId) ==> r == items
  {
    if items == [] then []
    else
      var rest := Without(items[1..], productId);
      assert forall k :: 0 < k < |items| ==> items[k] == items[1..][k - 1];
      assert HasProduct(items[1..], productId) ==> HasProduct(items, productId);
      if items[0].productId == productId then rest else [items[0]] + rest
  }

  /** The kept lines keep their relative order: filtering commutes with concatenation. */
  lemma {:induction false} WithoutConcat(a: seq<CartItem>, b: seq<CartItem>, productId: Guid)
    ensures Without(a + b, productId) == Without(a, productId) + Without(b, productId)
  {
    if a != [] {
      assert (a + b)[1..] == a[1..] + b;
      WithoutConcat(a[1..], b, productId);
    } else {
      assert a + b == b;
    }
  }

  /** One cart after the removal; it stays stored even when no line is left. */
  function PurgeCart(cart: Cart, productId: Guid): (r: Cart)
    ensures r.id == cart.id && r.userId == cart.userId && r.createdAt == cart.createdAt
    ensures !HasProduct(r.items, productId)
    ensures r != cart <==> HasProduct(cart.items, productId)
  {
    cart.(items := Without(cart.items, productId))
  }

  /** The whole collection after the removal: same carts, same order, same ids, and no copy of the product. */
  function PurgeAll(carts: seq<Cart>, productId: Guid): (r: seq<Cart>)
    ensures |r| == |carts|
    ensures forall k :: 0 <= k < |carts| ==> r[k].id == carts[k].id
    ensures forall k :: 0 <= k < |carts| ==> !HasProduct(r[k].items, productId)
    ensures forall k :: 0 <= k < |carts| && !HasProduct(carts[k].items, productId) ==> r[k] == carts[k]
  {
    seq(|carts|, k requires 0 <= k < |carts| => PurgeCart(carts[k], productId))
  }

  /** How many carts hold a copy of the product. */
  function CountContaining(carts: seq<Cart>, productId: Guid): (n: nat)
    ensures n <= |carts|
  {
    if carts == [] then 0
    else
      var m := |carts| - 1;
      CountContaining(carts[..m], productId) + (if HasProduct(carts[m].items, productId) then 1 else 0)
  }

  /** `RemoveProduct` as a store transition: the new carts and the returned count. */
  function RemoveEffect(carts: seq<Cart>, productId: Guid): (r: (seq<Cart>, nat))
    ensures |r.0| == |carts| && r.1 == DiffCount(carts, r.0)
  {
    CountIsCartsChanged(carts, productId);
    (PurgeAll(carts, productId), CountContaining(carts, productId))
  }

  /**
   * One iteration of `RemoveProduct` on the store: with the first `i` carts
   * read already purged, upserting the purged cart `i` when it held the
   * product (and nothing otherwise) purges the first `i + 1`, and the count
   * grows by one exactly when it held the product.
   */
  lemma RemoveStep(carts: seq<Cart>, i: nat, docs: seq<Cart>, productId: Guid)
    requires i < |carts| && DistinctIds(docs)
    requires docs == PurgeAll(carts[..i], productId) + carts[i..]
    ensures var c := PurgeCart(carts[i], productId);
      (if HasProduct(carts[i].items, productId) then Upserted(docs, c) else docs)
        == PurgeAll(carts[..i + 1], productId) + carts[i + 1..]
    ensures CountContaining(carts[..i + 1], productId)
        == CountContaining(carts[..i], productId) + (if HasProduct(carts[i].items, productId) then 1 else 0)
  {
    assert carts[..i + 1][..i] == carts[..i];
    var c := PurgeCart(carts[i], productId);
    var next := PurgeAll(carts[..i + 1], productId) + carts[i + 1..];
    assert docs[i := c] == next;
    if HasProduct(carts[i].items, productId) {
      UpsertStored(docs, i, c);
    } else {
      assert docs == next;
    }
  }

  /** The returned count is exactly the number of carts whose stored contents differ afterwards. */
  lemma {:induction false} CountIsCartsChanged(carts: seq<Cart>, productId: Guid)
    ensures DiffCount(carts, PurgeAll(carts, productId)) == CountContaining(carts, productId)
  {
    if carts != [] {
      var m := |carts| - 1;
      var after := PurgeAll(carts, productId);
      assert after[..m] == PurgeAll(carts[..m], productId);
      CountIsCartsChanged(carts[..m], productId);
      assert after[m] == PurgeCart(carts[m], productId);
    }
  }

  /** No cart contains the product any more, so nothing is counted. */
  lemma {:induction false} NoneContainingAfterPurge(carts: seq<Cart>, productId: Guid)
    ensures CountContaining(PurgeAll(carts, productId), productId) == 0
  {
    if carts != [] {
      var m := |carts| - 1;
      assert PurgeAll(carts, productId)[..m] == PurgeAll(carts[..m], productId);
      NoneContainingAfterPurge(carts[..m], productId);
    }
  }

  /** Idempotence: a second identical removal changes nothing and reports 0 carts. */
  lemma RemoveIdempotent(carts: seq<Cart>, productId: Guid)
    ensures var (once, _) := RemoveEffect(carts, productId);
            RemoveEffect(once, productId) == (once, 0)
  {
    var once := PurgeAll(carts, productId);
    NoneContainingAfterPurge(carts, productId);
    assert PurgeAll(once, productId) == once;
  }
}
