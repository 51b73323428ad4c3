/**
 * The cart repository of the `src/` tree: lookup and upsert by id, and the
 * two catalog reconciliations, product update and product removal, each a
 * full scan of the stored carts.
 */
module CartRepository {
  import opened Wrappers
  import opened Entities
  import opened CartStore
  import opened CartDtos
  import opened ProductRefresh
  import opened ProductRemoval

  class CartRepository {
    /** The store's "carts" collection, shared with every other repository on the same database. */
    const carts: CartCollection

    constructor (db: CartCollection)
      ensures carts == db
    {
      carts := db;
    }

    ghost predicate Valid()
      reads this, carts
    {
      carts.Valid()
    }

    /** True exactly when some stored cart has this id. */
    method CartExists(id: Guid) returns (b: bool)
      ensures b <==> exists k :: 0 <= k < |carts.docs| && carts.docs[k].id == id
    {
      b := carts.FindById(id).Some?;
    }

    /** A fresh copy of the stored cart (without its owner reference), or NotFound. */
    method GetCartById(id: Guid) returns (r: Result<CartDto, Error>)
      ensures carts.FindById(id).None? ==> r == Failure(NotFound("Cart", id))
      ensures carts.FindById(id).Some? ==>
        var stored := carts.FindById(id).value;
        && r.Success? && fresh(r.value)
        && r.value.id == id && r.value.userId == None
        && r.value.createdAt == stored.createdAt && r.value.items == stored.items
    {
      var found := carts.FindById(id);
      if found.None? {
        return Failure(NotFound("Cart", id));
      }
      var dto := new CartDto.Of(found.value.id, found.value.createdAt, found.value.items);
      return Success(dto);
    }

    /** Insert-or-replace by id; returns a fresh copy of what was stored. */
    method SaveCart(cart: CartDto, now: Timestamp) returns (saved: CartDto)
      requires Valid()
      modifies carts
      ensures Valid()
      ensures carts.docs == Upserted(old(carts.docs), StoredForm(cart.id, cart.createdAt, cart.items, now))
      ensures fresh(saved)
      ensures saved.id == cart.id && saved.userId == None && saved.items == cart.items
      ensures saved.createdAt == Some(cart.createdAt.GetOr(now))
    {
      var entity := StoredForm(cart.id, cart.createdAt, cart.items, now);
      carts.Upsert(entity);
      saved := new CartDto.Of(entity.id, entity.createdAt, entity.items);
    }

    /**
     * Overwrites the name (when given, non-empty and different) and the
     * price (when given and different) of one line; `changed` reports
     * whether the line is now different.
     */
    static method UpdateItemFields(item: CartItem, name: Option<string>, price: Option<real>)
      returns (updated: CartItem, changed: bool)
      ensures updated == RefreshItem(item, SkipNullOrEmpty, name, price)
      ensures changed <==> updated != item
    {
      updated := item;
      changed := false;
      if name.Some? && name.value != "" && updated.name != name.value {
        updated := updated.(name := name.value);
        changed := true;
      }
      if price.Some? && updated.price != price.value {
        updated := updated.(price := price.value);
        changed := true;
      }
    }

    /**
     * The inner scan of `UpdateProductInfo` over one cart's lines: every copy
     * of the product goes through `UpdateItemFields`; `changed` accumulates
     * whether any of them changed.
     */
    static method RefreshLines(lines: seq<CartItem>, productId: Guid, name: Option<string>, price: Option<real>)
      returns (items: seq<CartItem>, changed: bool)
      ensures items == RefreshItems(lines, productId, SkipNullOrEmpty, name, price)
      ensures changed <==> items != lines
    {
      items := lines;
      changed := false;
      for j := 0 to |lines|
        invariant |items| == |lines|
        invariant forall k :: 0 <= k < j ==> items[k] == RefreshMatching(lines[k], productId, SkipNullOrEmpty, name, price)
        invariant forall k :: j <= k < |items| ==> items[k] == lines[k]
        invariant changed <==> exists k :: 0 <= k < j && items[k] != lines[k]
      {
        if items[j].productId != productId {
          continue;
        }
        var updated, itemChanged := UpdateItemFields(items[j], name, price);
        items := items[j := updated];
        changed := changed || itemChanged;
      }
    }

    /**
     * Refreshes every copy of the product in every stored cart, upserts the
     * carts that changed and returns how many there were. `categoryId` is
     * accepted and not used.
     */
    method UpdateProductInfo(productId: Guid, name: Option<string>, price: Option<real>, categoryId: Option<Guid>)
      returns (affected: nat)
      requires Valid()
      modifies carts
      ensures Valid()
      ensures (carts.docs, affected) == UpdateEffect(old(carts.docs), productId, SkipNullOrEmpty, name, price)
      ensures affected == DiffCount(old(carts.docs), carts.docs)
    {
      var all := carts.FindAll();
      affected := 0;
      for i := 0 to |all|
        invariant carts.Valid()
        invariant carts.docs == RefreshAll(all[..i], productId, SkipNullOrEmpty, name, price) + all[i..]
        invariant affected == CountStale(all[..i], productId, SkipNullOrEmpty, name, price)
      {
        var cart := all[i];
        UpdateStep(all, i, carts.docs, productId, SkipNullOrEmpty, name, price);
        if |cart.items| == 0 {
          continue;
        }
        var items, changed := RefreshLines(cart.items, productId, name, price);
        assert cart.(items := items) == RefreshCart(cart, productId, SkipNullOrEmpty, name, price);
        if !changed {
          continue;
        }
        carts.Upsert(cart.(items := items));
        affected := affected + 1;
      }
      assert all[..|all|] == all && all[|all|..] == [];
      assert carts.docs == RefreshAll(all, productId, SkipNullOrEmpty, name, price);
      ProductRefresh.CountIsCartsChanged(all, productId, SkipNullOrEmpty, name, price);
    }

    /**
     * Drops every copy of the product from every stored cart, upserts the
     * carts that lost lines (an emptied cart stays stored) and returns how
     * many there were.
     */
    method RemoveProduct(productId: Guid) returns (affected: nat)
      requires Valid()
      modifies carts
      ensures Valid()
      ensures (carts.docs, affected) == RemoveEffect(old(carts.docs), productId)
      ensures affected == DiffCount(old(carts.docs), carts.docs)
    {
      var all := carts.FindAll();
      affected := 0;
      for i := 0 to |all|
        invariant carts.Valid()
        invariant carts.docs == PurgeAll(all[..i], productId) + all[i..]
        invariant affected == CountContaining(all[..i], productId)
      {
        var cart := all[i];
        RemoveStep(all, i, carts.docs, productId);
        var before := |cart.items|;
        var kept := Without(cart.items, productId);
        if |kept| != before {
          carts.Upsert(cart.(items := kept));
          affected := affected + 1;
        }
      }
      assert all[..|all|] == all && all[|all|..] == [];
      assert carts.docs == PurgeAll(all, productId);
      ProductRemoval.CountIsCartsChanged(all, productId);
    }
  }
}
