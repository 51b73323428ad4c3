/**
 * The older cart repository at the repository root: the same lookup and
 * upsert by id, and a product update whose name guard only skips a null
 * name (an empty name is applied). It has no product removal.
 */
module LegacyCartRepository {
  import opened Wrappers
  import opened Entities
  import opened CartStore
  import opened CartDtos
  import opened ProductRefresh

  class CartRepository {
    /** The store's "carts" collection, shared with every other repository on the same database. */
    const carts: CartCollection

    constructor (db: CartCollection)
      ensures carts == db
    {
      carts := db;
    }

    ghost predicate Valid()
      reads this, carts
    {
      carts.Valid()
    }

    /** True exactly when some stored cart has this id. */
    method CartExists(id: Guid) returns (b: bool)
      ensures b <==> exists k :: 0 <= k < |carts.docs| && carts.docs[k].id == id
    {
      b := carts.FindById(id).Some?;
    }

    /** A fresh copy of the stored cart (without its owner reference), or NotFound. */
    method GetCartById(id: Guid) returns (r: Result<CartDto, Error>)
      ensures carts.FindById(id).None? ==> r == Failure(NotFound("Cart", id))
      ensures carts.FindById(id).Some? ==>
        var stored := carts.FindById(id).value;
        && r.Success? && fresh(r.value)
        && r.value.id == id && r.value.userId == None
        && r.value.createdAt == stored.createdAt && r.value.items == stored.items
    {
      var found := carts.FindById(id);
      if found.None? {
        return Failure(NotFound("Cart", id));
      }
      var dto := new CartDto.Of(found.value.id, found.value.createdAt, found.value.items);
      return Success(dto);
    }

    /** Insert-or-replace by id; returns a fresh copy of what was stored. */
    method SaveCart(cartDto: CartDto, now: Timestamp) returns (saved: CartDto)
      requires Valid()
      modifies carts
      ensures Valid()
      ensures carts.docs == Upserted(old(carts.docs), StoredForm(cartDto.id, cartDto.createdAt, cartDto.items, now))
      ensures fresh(saved)
      ensures saved.id == cartDto.id && saved.userId == None && saved.items == cartDto.items
      ensures saved.createdAt == Some(cartDto.createdAt.GetOr(now))
    {
      var entity := StoredForm(cartDto.id, cartDto.createdAt, cartDto.items, now);
      carts.Upsert(entity);
      saved := new CartDto.Of(entity.id, entity.createdAt, entity.items);
    }

    /**
     * The inner scan of `UpdateProductInfo` over one cart's lines: on every
     * copy of the product, the name is overwritten when given and different
     * (even when empty), the price when given and different.
     */
    static method RefreshLines(lines: seq<CartItem>, productId: Guid, name: Option<string>, price: Option<real>)
      returns (items: seq<CartItem>, changed: bool)
      ensures items == RefreshItems(lines, productId, SkipNull, name, price)
      ensures changed <==> items != lines
    {
      items := lines;
      changed := false;
      for j := 0 to |lines|
        invariant |items| == |lines|
        invariant forall k :: 0 <= k < j ==> items[k] == RefreshMatching(lines[k], productId, SkipNull, name, price)
        invariant forall k :: j <= k < |items| ==> items[k] == lines[k]
        invariant changed <==> exists k :: 0 <= k < j && items[k] != lines[k]
      {
        if items[j].productId == productId {
          var item := items[j];
          if name.Some? && item.name != name.value {
            item := item.(name := name.value);
            changed := true;
          }
          if price.Some? && item.price != price.value {
            item := item.(price := price.value);
            changed := true;
          }
          assert item == RefreshItem(lines[j], SkipNull, name, price);
          items := items[j := item];
        }
      }
    }

    /**
     * Refreshes every copy of the product in every stored cart, upserts the
     * carts that changed and returns how many there were. `categoryId` is
     * accepted and not used.
     */
    method UpdateProductInfo(productId: Guid, name: Option<string>, price: Option<real>, categoryId: Option<Guid>)
      returns (affected: nat)
      requires Valid()
      modifies carts
      ensures Valid()
      ensures (carts.docs, affected) == UpdateEffect(old(carts.docs), productId, SkipNull, name, price)
      ensures affected == DiffCount(old(carts.docs), carts.docs)
    {
      var all := carts.FindAll();
      affected := 0;
      for i := 0 to |all|
        invariant carts.Valid()
        invariant carts.docs == RefreshAll(all[..i], productId, SkipNull, name, price) + all[i..]
        invariant affected == CountStale(all[..i], productId, SkipNull, name, price)
      {
        var cart := all[i];
        UpdateStep(all, i, carts.docs, productId, SkipNull, name, price);
        var items, changed := RefreshLines(cart.items, productId, name, price);
        assert cart.(items := items) == RefreshCart(cart, productId, SkipNull, name, price);
        if changed {
          carts.Upsert(cart.(items := items));
          affected := affected + 1;
        }
      }
      assert all[..|all|] == all && all[|all|..] == [];
      assert carts.docs == RefreshAll(all, productId, SkipNull, name, price);
      ProductRefresh.CountIsCartsChanged(all, productId, SkipNull, name, price);
    }
  }
}
