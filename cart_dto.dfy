/**
 * The cart as the service layer sees it: a mutable record whose `Total`
 * is always recomputed from its lines.
 */
module CartDtos {
  import opened Wrappers
  import opened Entities
  import ProductRefresh

  /** `Price * Quantity` of one line (decimal times int, exact). */
  function LineTotal(item: CartItem): real {
    item.price * (item.quantity as real)
  }

  /** `Items.Sum(i => i.Price * i.Quantity)`. */
  function TotalOf(items: seq<CartItem>): (t: real)
    ensures items == [] ==> t == 0.0
    ensures (forall k :: 0 <= k < |items| ==> items[k].price >= 0.0 && items[k].quantity >= 0) ==> t >= 0.0
  {
    if items == [] then 0.0 else LineTotal(items[0]) + TotalOf(items[1..])
  }

  /** Appending a line raises the total by that line's amount. */
  lemma {:induction false} TotalAppend(items: seq<CartItem>, x: CartItem)
    ensures TotalOf(items + [x]) == TotalOf(items) + LineTotal(x)
  {
    if items == [] {
      assert [] + [x] == [x];
    } else {
      assert (items + [x])[1..] == items[1..] + [x];
      TotalAppend(items[1..], x);
    }
  }

  /** Removing the line at position `k` lowers the total by exactly that line's amount. */
  lemma {:induction false} TotalRemoveAt(items: seq<CartItem>, k: nat)
    requires k < |items|
    ensures TotalOf(items[..k] + items[k + 1..]) == TotalOf(items) - LineTotal(items[k])
  {
    if k == 0 {
      assert items[..0] + items[1..] == items[1..];
    } else {
      assert (items[..k] + items[k + 1..])[1..] == items[1..][..k - 1] + items[1..][k..];
      TotalRemoveAt(items[1..], k - 1);
    }
  }

  /** Removing the line at position `k` removes one occurrence of it from the lines' multiset. */
  lemma MultisetRemoveAt(items: seq<CartItem>, k: nat)
    requires k < |items|
    ensures multiset(items[..k] + items[k + 1..]) == multiset(items) - multiset{items[k]}
  {
    assert items == items[..k] + [items[k]] + items[k + 1..];
    assert multiset(items) == multiset(items[..k]) + multiset{items[k]} + multiset(items[k + 1..]);
  }

  /** A position holding the line. */
  function PositionOf(items: seq<CartItem>, x: CartItem): (k: nat)
    requires x in items
    ensures k < |items| && items[k] == x
  {
    if items[0] == x then 0 else 1 + PositionOf(items[1..], x)
  }

  /**
   * The first line of `a` occurs somewhere in a permutation `b`; without it,
   * `b` is a permutation of the rest of `a`, and `b`'s total splits accordingly.
   */
  lemma PermutationTail(a: seq<CartItem>, b: seq<CartItem>) returns (rest: seq<CartItem>)
    requires a != [] && multiset(a) == multiset(b)
    ensures multiset(a[1..]) == multiset(rest)
    ensures TotalOf(b) == LineTotal(a[0]) + TotalOf(rest)
  {
    assert a[0] in b by {
      assert a[0] in multiset(a);
    }
    var k := PositionOf(b, a[0]);
    rest := b[..k] + b[k + 1..];
    calc {
      multiset(a[1..]);
      { assert a[..0] + a[1..] == a[1..]; }
      multiset(a[..0] + a[1..]);
      { MultisetRemoveAt(a, 0); }
      multiset(a) - multiset{a[0]};
      multiset(b) - multiset{b[k]};
      { MultisetRemoveAt(b, k); }
      multiset(rest);
    }
    TotalRemoveAt(b, k);
  }

  /** The total does not depend on the order of the lines. */
  lemma {:induction false} TotalPermutation(a: seq<CartItem>, b: seq<CartItem>)
    requires multiset(a) == multiset(b)
    ensures TotalOf(a) == TotalOf(b)
    decreases |a|
  {
    if a != [] {
      var rest := PermutationTail(a, b);
      TotalPermutation(a[1..], rest);
    }
  }

  /** Only prices and quantities matter: names, images and product ids do not enter the total. */
  lemma {:induction false} TotalOnlyPricesAndQuantities(a: seq<CartItem>, b: seq<CartItem>)
    requires |a| == |b|
    requires forall k :: 0 <= k < |a| ==> a[k].price == b[k].price && a[k].quantity == b[k].quantity
    ensures TotalOf(a) == TotalOf(b)
  {
    if a != [] {
      TotalOnlyPricesAndQuantities(a[1..], b[1..]);
    }
  }

  /** A product update that gives no price leaves every cart's total unchanged. */
  lemma NameOnlyUpdateKeepsTotal(items: seq<CartItem>, productId: Guid, rule: ProductRefresh.NameRule, name: Option<string>)
    ensures TotalOf(ProductRefresh.RefreshItems(items, productId, rule, name, None)) == TotalOf(items)
  {
    var r := ProductRefresh.RefreshItems(items, productId, rule, name, None);
    forall k | 0 <= k < |items| ensures r[k].price == items[k].price {
      if items[k].productId == productId {
        assert r[k] == ProductRefresh.RefreshItem(items[k], rule, name, None);
      }
    }
    TotalOnlyPricesAndQuantities(r, items);
  }

  /** Lines priced 5 x 2, 3 x 4 and 2 x 5 total 32. */
  lemma ThreeLinesTotal(p1: Guid, p2: Guid, p3: Guid)
    ensures TotalOf([CartItem(p1, "TestItem", None, 2, 5.0),
                     CartItem(p2, "TestItem", None, 4, 3.0),
                     CartItem(p3, "TestItem", None, 5, 2.0)]) == 32.0
  {
    var s := [CartItem(p1, "TestItem", None, 2, 5.0),
              CartItem(p2, "TestItem", None, 4, 3.0),
              CartItem(p3, "TestItem", None, 5, 2.0)];
    assert TotalOf(s[2..]) == 10.0 by {
      assert s[2..][1..] == [];
    }
    assert TotalOf(s[1..]) == 12.0 + TotalOf(s[2..]) by {
      assert s[1..][1..] == s[2..];
    }
  }

  /** `CartDTO`. */
  class CartDto {
    var id: Guid
    var userId: Option<string>
    var createdAt: Option<Timestamp>
    var items: seq<CartItem>

    /** `new CartDTO()`: no lines, so a total of 0. */
    constructor ()
      ensures id == EmptyGuid && userId == None && createdAt == None && items == []
      ensures Total() == 0.0
    {
      id, userId, createdAt, items := EmptyGuid, None, None, [];
    }

    /** `new CartDTO { Id = .., CreatedAt = .., Items = .. }`; `UserId` is left null. */
    constructor Of(id: Guid, createdAt: Option<Timestamp>, items: seq<CartItem>)
      ensures this.id == id && this.userId == None && this.createdAt == createdAt && this.items == items
    {
      this.id, this.userId, this.createdAt, this.items := id, None, createdAt, items;
    }

    /** Recomputed on every read. */
    function Total(): (t: real)
      reads this
      ensures items == [] ==> t == 0.0
      ensures (forall k :: 0 <= k < |items| ==> items[k].price >= 0.0 && items[k].quantity >= 0) ==> t >= 0.0
    {
      TotalOf(items)
    }

    /** Sets the id and nothing else. */
    method Build(cartId: Guid)
      modifies this
      ensures id == cartId
      ensures userId == old(userId) && createdAt == old(createdAt) && items == old(items)
    {
      id := cartId;
    }
  }
}
