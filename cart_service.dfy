/**
 * The cart business layer: fetch a cart, change its lines in place and
 * save it back through the repository.
 */
module CartServiceBL {
  import opened Wrappers
  import opened Entities
  import opened CartStore
  import opened CartDtos
  import ProductRemoval
  import Legacy = LegacyCartRepository

  /** `Items.FirstOrDefault(i => i.ProductId == productId)`, as a position. */
  function FirstMatch(items: seq<CartItem>, productId: Guid): (r: Option<nat>)
    ensures r.Some? ==> r.value < |items| && items[r.value].productId == productId
    ensures r.Some? ==> forall k :: 0 <= k < r.value ==> items[k].productId != productId
    ensures r.None? <==> !HasProduct(items, productId)
  {
    if items == [] then None
    else if items[0].productId == productId then Some(0)
    else match FirstMatch(items[1..], productId)
      case None =>
        assert forall k :: 0 < k < |items| ==> items[k] == items[1..][k - 1];
        None
      case Some(k) => Some(k + 1)
  }

  /** The lines left after removing the line at `k`. */
  function RemoveAt(items: seq<CartItem>, k: nat): (r: seq<CartItem>)
    requires k < |items|
    ensures |r| == |items| - 1
  {
    items[..k] + items[k + 1..]
  }

  /**
   * Removing one copy of a product leaves every other line exactly as it
   * was, in order: the lines before it and the lines after it (other
   * copies of the product included) are untouched.
   */
  lemma RemoveCopyKeepsOthers(items: seq<CartItem>, k: nat, productId: Guid)
    requires k < |items| && items[k].productId == productId
    ensures ProductRemoval.Without(RemoveAt(items, k), productId) == ProductRemoval.Without(items, productId)
    ensures multiset(RemoveAt(items, k)) + multiset{items[k]} == multiset(items)
    ensures RemoveAt(items, k)[..k] == items[..k] && RemoveAt(items, k)[k..] == items[k + 1..]
  {
    var tail := items[k + 1..];
    assert items == items[..k] + ([items[k]] + tail);
    ProductRemoval.WithoutConcat(items[..k], [items[k]] + tail, productId);
    ProductRemoval.WithoutConcat([items[k]], tail, productId);
    ProductRemoval.WithoutConcat(items[..k], tail, productId);
    assert ProductRemoval.Without([items[k]], productId) == [] by {
      assert [items[k]][1..] == [];
    }
  }

  /** Removing the first copy lowers the total by exactly that line's amount. */
  lemma RemoveFirstCopyTotal(items: seq<CartItem>, productId: Guid)
    requires HasProduct(items, productId)
    ensures var k := FirstMatch(items, productId).value;
      TotalOf(RemoveAt(items, k)) == TotalOf(items) - LineTotal(items[k])
  {
    TotalRemoveAt(items, FirstMatch(items, productId).value);
  }

  /** Adding never merges lines: a product already in the cart then appears twice. */
  lemma AddKeepsDuplicates(items: seq<CartItem>, item: CartItem)
    requires HasProduct(items, item.productId)
    ensures exists a, b :: (0 <= a < b < |items + [item]| &&
      (items + [item])[a].productId == item.productId && (items + [item])[b].productId == item.productId)
  {
    var a :| 0 <= a < |items| && items[a].productId == item.productId;
    assert (items + [item])[a] == items[a] && (items + [item])[|items|] == item;
  }

  class CartServiceBL {
    const repository: Legacy.CartRepository

    constructor (repo: Legacy.CartRepository)
      ensures repository == repo
    {
      repository := repo;
    }

    ghost predicate Valid()
      reads this, repository, repository.carts
    {
      repository.Valid()
    }

    /**
     * Appends the line to the stored cart's lines and saves the cart once;
     * a missing cart is NotFound and nothing is saved.
     */
    method AddItemToCart(cartId: Guid, cartItem: CartItem, now: Timestamp) returns (r: Result<CartDto, Error>)
      requires Valid()
      modifies repository.carts
      ensures Valid()
      ensures old(repository.carts.FindById(cartId)).None? ==>
        r == Failure(NotFound("Cart", cartId)) && repository.carts.docs == old(repository.carts.docs)
      ensures old(repository.carts.FindById(cartId)).Some? ==>
        var stored := old(repository.carts.FindById(cartId)).value;
        && r.Success? && fresh(r.value)
        && r.value.id == cartId && r.value.items == stored.items + [cartItem]
        && r.value.userId == None && r.value.createdAt == Some(stored.createdAt.GetOr(now))
        && repository.carts.docs == Upserted(old(repository.carts.docs),
             StoredForm(cartId, stored.createdAt, stored.items + [cartItem], now))
        && repository.carts.FindById(cartId).value.items == stored.items + [cartItem]
    {
      var got := repository.GetCartById(cartId);
      if got.Failure? {
        return Failure(got.error);
      }
      var cart := got.value;
      cart.items := cart.items + [cartItem];
      var saved := repository.SaveCart(cart, now);
      return Success(saved);
    }

    /** The repository's cart as it is, or its NotFound. */
    method GetCartById(id: Guid) returns (r: Result<CartDto, Error>)
      ensures repository.carts.FindById(id).None? ==> r == Failure(NotFound("Cart", id))
      ensures repository.carts.FindById(id).Some? ==>
        var stored := repository.carts.FindById(id).value;
        && r.Success? && fresh(r.value)
        && r.value.id == id && r.value.userId == None
        && r.value.createdAt == stored.createdAt && r.value.items == stored.items
    {
      r := repository.GetCartById(id);
    }

    /**
     * Removes the first line that is a copy of the product and saves the
     * cart; a missing cart or a missing line is NotFound and nothing is saved.
     */
    method RemoveItemFromCart(id: Guid, itemId: Guid, now: Timestamp) returns (r: Result<(), Error>)
      requires Valid()
      modifies repository.carts
      ensures Valid()
      ensures old(repository.carts.FindById(id)).None? ==>
        r == Failure(NotFound("Cart", id)) && repository.carts.docs == old(repository.carts.docs)
      ensures old(repository.carts.FindById(id)).Some? && !HasProduct(old(repository.carts.FindById(id)).value.items, itemId) ==>
        r == Failure(NotFound("CartItem", itemId)) && repository.carts.docs == old(repository.carts.docs)
      ensures old(repository.carts.FindById(id)).Some? && HasProduct(old(repository.carts.FindById(id)).value.items, itemId) ==>
        var stored := old(repository.carts.FindById(id)).value;
        var k := FirstMatch(stored.items, itemId).value;
        && r.Success?
        && repository.carts.docs == Upserted(old(repository.carts.docs),
             StoredForm(id, stored.createdAt, RemoveAt(stored.items, k), now))
    {
      var got := repository.GetCartById(id);
      if got.Failure? {
        return Failure(got.error);
      }
      var cart := got.value;
      var itemToRemove := FirstMatch(cart.items, itemId);
      if itemToRemove.None? {
        return Failure(NotFound("CartItem", itemId));
      }
      cart.items := RemoveAt(cart.items, itemToRemove.value);
      var _ := repository.SaveCart(cart, now);
      return Success(());
    }
  }
}
