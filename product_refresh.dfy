/**
 * What `UpdateProductInfo` does to the stored carts, as functions of the
 * carts before the call: every copy of the product gets the new name and
 * price where they are given and differ, and the carts that changed are
 * counted. Both repository versions are instances; they differ only in
 * which names they apply (`NameRule`).
 */
module ProductRefresh {
  import opened Wrappers
  import opened Entities
  import opened CartStore

  /**
   * Which new names are applied: `SkipNull` applies any non-null name, the
   * empty one included; `SkipNullOrEmpty` ignores null and the empty name.
   */
  datatype NameRule = SkipNull | SkipNullOrEmpty

  /** The name guard: a name is given (under the rule) and differs from the current one. */
  predicate NameApplies(rule: NameRule, name: Option<string>, current: string)
    ensures NameApplies(rule, name, current) ==> name.Some? && name.value != current
    ensures name.Some? && name.value == current ==> !NameApplies(rule, name, current)
    ensures name.Some? && name.value != "" ==> (NameApplies(rule, name, current) <==> name.value != current)
  {
    match rule
    case SkipNull => name.Some? && current != name.value
    case SkipNullOrEmpty => name.Some? && name.value != "" && current != name.value
  }

  /** The price guard: a price is given and differs (exact decimal equality) from the current one. */
  predicate PriceApplies(price: Option<real>, current: real)
    ensures price.None? ==> !PriceApplies(price, current)
    ensures price.Some? && price.value == current ==> !PriceApplies(price, current)
  {
    price.Some? && current != price.value
  }

  /** One product copy after the update. */
  function RefreshItem(item: CartItem, rule: NameRule, name: Option<string>, price: Option<real>): (r: CartItem)
    ensures r.productId == item.productId && r.quantity == item.quantity && r.imageUrl == item.imageUrl
    ensures r.name != item.name <==> NameApplies(rule, name, item.name)
    ensures r.name != item.name ==> name == Some(r.name)
    ensures r.price != item.price <==> PriceApplies(price, item.price)
    ensures r.price != item.price ==> price == Some(r.price)
    // once applied, neither guard lets the same update through again
    ensures !NameApplies(rule, name, r.name) && !PriceApplies(price, r.price)
  {
    var named := if NameApplies(rule, name, item.name) then item.(name := name.value) else item;
    if PriceApplies(price, named.price) then named.(price := price.value) else named
  }

  /** A line is updated only when it is a copy of the product. */
  function RefreshMatching(item: CartItem, productId: Guid, rule: NameRule, name: Option<string>, price: Option<real>): CartItem {
    if item.productId == productId then RefreshItem(item, rule, name, price) else item
  }

  /** All lines of one cart after the update, in their original order. */
  function RefreshItems(items: seq<CartItem>, productId: Guid, rule: NameRule, name: Option<string>, price: Option<real>): (r: seq<CartItem>)
    ensures |r| == |items|
    ensures forall k :: 0 <= k < |items| && items[k].productId != productId ==> r[k] == items[k]
    ensures forall k :: 0 <= k < |items| ==>
      r[k].productId == items[k].productId && r[k].quantity == items[k].quantity && r[k].imageUrl == items[k].imageUrl
  {
    seq(|items|, k requires 0 <= k < |items| => RefreshMatching(items[k], productId, rule, name, price))
  }

  /** Some copy of the product in `cart` would be changed by the update: the cart gets upserted. */
  predicate Stale(cart: Cart, productId: Guid, rule: NameRule, name: Option<string>, price: Option<real>) {
    exists k :: 0 <= k < |cart.items| && cart.items[k].productId == productId &&
      (NameApplies(rule, name, cart.items[k].name) || PriceApplies(price, cart.items[k].price))
  }

  /** The lines of a cart change exactly when the cart is stale. */
  lemma LinesChangeIffStale(cart: Cart, productId: Guid, rule: NameRule, name: Option<string>, price: Option<real>)
    ensures RefreshItems(cart.items, productId, rule, name, price) != cart.items <==> Stale(cart, productId, rule, name, price)
  {
    var r := RefreshItems(cart.items, productId, rule, name, price);
    if Stale(cart, productId, rule, name, price) {
      var k :| 0 <= k < |cart.items| && cart.items[k].productId == productId &&
        (NameApplies(rule, name, cart.items[k].name) || PriceApplies(price, cart.items[k].price));
      assert r[k] != cart.items[k];
    } else {
      assert r == cart.items;
    }
  }

  /** One cart after the update: only its lines may change, and they change exactly when it is stale. */
  function RefreshCart(cart: Cart, productId: Guid, rule: NameRule, name: Option<string>, price: Option<real>): (r: Cart)
    ensures r.id == cart.id && r.userId == cart.userId && r.createdAt == cart.createdAt
    ensures r != cart <==> Stale(cart, productId, rule, name, price)
  {
    LinesChangeIffStale(cart, productId, rule, name, price);
    cart.(items := RefreshItems(cart.items, productId, rule, name, price))
  }

  /** The whole collection after the update: same carts, same order, same ids. */
  function RefreshAll(carts: seq<Cart>, productId: Guid, rule: NameRule, name: Option<string>, price: Option<real>): (r: seq<Cart>)
    ensures |r| == |carts|
    ensures forall k :: 0 <= k < |carts| ==> r[k].id == carts[k].id
    ensures forall k :: 0 <= k < |carts| && !Stale(carts[k], productId, rule, name, price) ==> r[k] == carts[k]
  {
    seq(|carts|, k requires 0 <= k < |carts| => RefreshCart(carts[k], productId, rule, name, price))
  }

  /** How many carts are stale, i.e. how many the update upserts. */
  function CountStale(carts: seq<Cart>, productId: Guid, rule: NameRule, name: Option<string>, price: Option<real>): (n: nat)
    ensures n <= |carts|
  {
    if carts == [] then 0
    else
      var m := |carts| - 1;
      CountStale(carts[..m], productId, rule, name, price) + (if Stale(carts[m], productId, rule, name, price) then 1 else 0)
  }

  /** `UpdateProductInfo` as a store transition: the new carts and the returned count. */
  function UpdateEffect(carts: seq<Cart>, productId: Guid, rule: NameRule, name: Option<string>, price: Option<real>): (r: (seq<Cart>, nat))
    ensures |r.0| == |carts| && r.1 == DiffCount(carts, r.0)
  {
    CountIsCartsChanged(carts, productId, rule, name, price);
    (RefreshAll(carts, productId, rule, name, price), CountStale(carts, productId, rule, name, price))
  }

  /** Refreshing a prefix is the prefix of refreshing the whole. */
  lemma RefreshAllPrefix(carts: seq<Cart>, m: nat, productId: Guid, rule: NameRule, name: Option<string>, price: Option<real>)
    requires m <= |carts|
    ensures RefreshAll(carts, productId, rule, name, price)[..m] == RefreshAll(carts[..m], productId, rule, name, price)
  {
  }

  /** Scanning one more cart: the carts before `i` are refreshed, the rest still as read. */
  lemma RefreshStep(carts: seq<Cart>, i: nat, productId: Guid, rule: NameRule, name: Option<string>, price: Option<real>)
    requires i < |carts|
    ensures var done := RefreshAll(carts[..i], productId, rule, name, price) + carts[i..];
      && |done| == |carts| && done[i] == carts[i]
      && done[i := RefreshCart(carts[i], productId, rule, name, price)]
         == RefreshAll(carts[..i + 1], productId, rule, name, price) + carts[i + 1..]
      && (!Stale(carts[i], productId, rule, name, price) ==>
           done == RefreshAll(carts[..i + 1], productId, rule, name, price) + carts[i + 1..])
      && CountStale(carts[..i + 1], productId, rule, name, price)
         == CountStale(carts[..i], productId, rule, name, price) + (if Stale(carts[i], productId, rule, name, price) then 1 else 0)
  {
    assert carts[..i + 1][..i] == carts[..i];
    var done := RefreshAll(carts[..i], productId, rule, name, price) + carts[i..];
    var next := RefreshAll(carts[..i + 1], productId, rule, name, price) + carts[i + 1..];
    assert done[i := RefreshCart(carts[i], productId, rule, name, price)] == next;
  }

  /**
   * One iteration of `UpdateProductInfo` on the store: with the first `i`
   * carts read already refreshed, upserting the refreshed cart `i` when it
   * changed (and nothing otherwise) refreshes the first `i + 1`, and the
   * count grows by one exactly when it changed.
   */
  lemma UpdateStep(carts: seq<Cart>, i: nat, docs: seq<Cart>, productId: Guid, rule: NameRule, name: Option<string>, price: Option<real>)
    requires i < |carts| && DistinctIds(docs)
    requires docs == RefreshAll(carts[..i], productId, rule, name, price) + carts[i..]
    ensures var c := RefreshCart(carts[i], productId, rule, name, price);
      (if c != carts[i] then Upserted(docs, c) else docs)
        == RefreshAll(carts[..i + 1], productId, rule, name, price) + carts[i + 1..]
    ensures var c := RefreshCart(carts[i], productId, rule, name, price);
      CountStale(carts[..i + 1], productId, rule, name, price)
        == CountStale(carts[..i], productId, rule, name, price) + (if c != carts[i] then 1 else 0)
  {
    RefreshStep(carts, i, productId, rule, name, price);
    var c := RefreshCart(carts[i], productId, rule, name, price);
    if c != carts[i] {
      UpsertStored(docs, i, c);
    }
  }

  /** The returned count is exactly the number of carts whose stored contents differ afterwards. */
  lemma {:induction false} CountIsCartsChanged(carts: seq<Cart>, productId: Guid, rule: NameRule, name: Option<string>, price: Option<real>)
    ensures DiffCount(carts, RefreshAll(carts, productId, rule, name, price)) == CountStale(carts, productId, rule, name, price)
  {
    if carts != [] {
      var m := |carts| - 1;
      var after := RefreshAll(carts, productId, rule, name, price);
      RefreshAllPrefix(carts, m, productId, rule, name, price);
      CountIsCartsChanged(carts[..m], productId, rule, name, price);
      assert after[m] == RefreshCart(carts[m], productId, rule, name, price);
    }
  }

  /** After an update no cart is stale for the same arguments. */
  lemma {:induction false} NothingStaleAfterRefresh(carts: seq<Cart>, productId: Guid, rule: NameRule, name: Option<string>, price: Option<real>)
    ensures CountStale(RefreshAll(carts, productId, rule, name, price), productId, rule, name, price) == 0
  {
    if carts != [] {
      var m := |carts| - 1;
      var after := RefreshAll(carts, productId, rule, name, price);
      RefreshAllPrefix(carts, m, productId, rule, name, price);
      NothingStaleAfterRefresh(carts[..m], productId, rule, name, price);
      RefreshedCartNotStale(carts[m], productId, rule, name, price);
    }
  }

  /** No line of a refreshed cart lets the same update through again. */
  lemma RefreshedCartNotStale(cart: Cart, productId: Guid, rule: NameRule, name: Option<string>, price: Option<real>)
    ensures !Stale(RefreshCart(cart, productId, rule, name, price), productId, rule, name, price)
  {
    var c := RefreshCart(cart, productId, rule, name, price);
    forall k | 0 <= k < |c.items| && c.items[k].productId == productId
      ensures !NameApplies(rule, name, c.items[k].name) && !PriceApplies(price, c.items[k].price)
    {
      assert c.items[k] == RefreshItem(cart.items[k], rule, name, price);
    }
  }

  /**
   * Idempotence: a second identical update leaves every cart as the first
   * one left it and reports 0 carts.
   */
  lemma UpdateIdempotent(carts: seq<Cart>, productId: Guid, rule: NameRule, name: Option<string>, price: Option<real>)
    ensures var (once, _) := UpdateEffect(carts, productId, rule, name, price);
            UpdateEffect(once, productId, rule, name, price) == (once, 0)
  {
    var once := RefreshAll(carts, productId, rule, name, price);
    NothingStaleAfterRefresh(carts, productId, rule, name, price);
    CountIsCartsChanged(once, productId, rule, name, price);
  }

  /** An update that gives neither a name nor a price changes nothing and reports 0. */
  lemma {:induction false} NoFieldsNoChange(carts: seq<Cart>, productId: Guid, rule: NameRule)
    ensures UpdateEffect(carts, productId, rule, None, None) == (carts, 0)
  {
    CountIsCartsChanged(carts, productId, rule, None, None);
  }

  /** The two name rules disagree only on the empty name. */
  lemma RulesAgreeOnNonEmptyName(carts: seq<Cart>, productId: Guid, name: Option<string>, price: Option<real>)
    requires name != Some("")
    ensures UpdateEffect(carts, productId, SkipNull, name, price) == UpdateEffect(carts, productId, SkipNullOrEmpty, name, price)
  {
    forall c | c in carts
      ensures RefreshCart(c, productId, SkipNull, name, price) == RefreshCart(c, productId, SkipNullOrEmpty, name, price)
    {
      assert RefreshItems(c.items, productId, SkipNull, name, price) == RefreshItems(c.items, productId, SkipNullOrEmpty, name, price);
    }
    assert RefreshAll(carts, productId, SkipNull, name, price) == RefreshAll(carts, productId, SkipNullOrEmpty, name, price);
    CountIsCartsChanged(carts, productId, SkipNull, name, price);
    CountIsCartsChanged(carts, productId, SkipNullOrEmpty, name, price);
  }

  /**
   * On the empty name: under `SkipNull` every named copy of the product is
   * renamed to "", under `SkipNullOrEmpty` no name changes.
   */
  lemma EmptyNameRule(item: CartItem, price: Option<real>)
    ensures RefreshItem(item, SkipNull, Some(""), price).name == ""
    ensures RefreshItem(item, SkipNullOrEmpty, Some(""), price).name == item.name
  {
  }
}
