/**
 * The document store's "carts" collection, reduced to what the repositories
 * use: enumerate every cart in a fixed order (`FindAll`), look one up by id
 * (`FindById`) and insert-or-replace by id (`Upsert`).
 */
module CartStore {
  import opened Wrappers
  import opened Entities

  /** The collection's key constraint: no two documents share an id. */
  predicate DistinctIds(docs: seq<Cart>) {
    forall a, b :: 0 <= a < b < |docs| ==> docs[a].id != docs[b].id
  }

  /** Position of the first document with the given id. */
  function IndexOfId(docs: seq<Cart>, id: Guid): (r: Option<nat>)
    ensures r.Some? ==> r.value < |docs| && docs[r.value].id == id
    ensures r.Some? ==> forall k :: 0 <= k < r.value ==> docs[k].id != id
    ensures r.None? <==> forall k :: 0 <= k < |docs| ==> docs[k].id != id
  {
    if docs == [] then None
    else if docs[0].id == id then Some(0)
    else match IndexOfId(docs[1..], id)
      case None => None
      case Some(k) => Some(k + 1)
  }

  /** With distinct ids, the document at position `k` is the one found by its id. */
  lemma IndexOfStored(docs: seq<Cart>, k: nat)
    requires DistinctIds(docs) && k < |docs|
    ensures IndexOfId(docs, docs[k].id) == Some(k)
  {
  }

  /** Two collections that agree, position by position, on which ids equal `id` find it at the same place. */
  lemma {:induction false} IndexOfSamePattern(a: seq<Cart>, b: seq<Cart>, id: Guid)
    requires |a| == |b|
    requires forall k :: 0 <= k < |a| ==> (a[k].id == id <==> b[k].id == id)
    ensures IndexOfId(a, id) == IndexOfId(b, id)
  {
    if a != [] && a[0].id != id {
      IndexOfSamePattern(a[1..], b[1..], id);
    }
  }

  /** Appending a document with another id does not change where `id` is found. */
  lemma {:induction false} IndexOfAppend(docs: seq<Cart>, c: Cart, id: Guid)
    requires c.id != id
    ensures IndexOfId(docs + [c], id) == IndexOfId(docs, id)
  {
    if docs == [] {
      assert ([] + [c])[1..] == [];
    } else if docs[0].id != id {
      assert (docs + [c])[1..] == docs[1..] + [c];
      IndexOfAppend(docs[1..], c, id);
    }
  }

  /** `FindById` over a document sequence. */
  function FindIn(docs: seq<Cart>, id: Guid): (r: Option<Cart>)
    ensures r.Some? ==> r.value.id == id && r.value in docs
    ensures r.None? <==> forall k :: 0 <= k < |docs| ==> docs[k].id != id
  {
    match IndexOfId(docs, id)
    case None => None
    case Some(k) => Some(docs[k])
  }

  /**
   * `Upsert(c)`: replace the document with `c`'s id in place, or append `c`
   * when no document has that id. Afterwards `c` is what is found under its
   * id, every other id finds what it found before, and ids stay distinct.
   */
  function Upserted(docs: seq<Cart>, c: Cart): (r: seq<Cart>)
    ensures FindIn(r, c.id) == Some(c)
    ensures forall id :: id != c.id ==> FindIn(r, id) == FindIn(docs, id)
    ensures DistinctIds(docs) ==> DistinctIds(r)
    ensures FindIn(docs, c.id).Some? ==> |r| == |docs|
    ensures FindIn(docs, c.id).None? ==> r == docs + [c]
    ensures IndexOfId(docs, c.id).Some? ==> r == docs[IndexOfId(docs, c.id).value := c]
  {
    match IndexOfId(docs, c.id)
    case Some(k) =>
      var r := docs[k := c];
      assert IndexOfId(r, c.id) == Some(k) by { IndexOfSamePattern(r, docs, c.id); }
      forall id | id != c.id ensures FindIn(r, id) == FindIn(docs, id) {
        IndexOfSamePattern(r, docs, id);
      }
      r
    case None =>
      var r := docs + [c];
      assert IndexOfId(r, c.id) == Some(|docs|) by {
        assert r[|docs|].id == c.id;
      }
      forall id | id != c.id ensures FindIn(r, id) == FindIn(docs, id) {
        IndexOfAppend(docs, c, id);
      }
      r
  }

  /** Upserting a cart whose id is stored at position `i` replaces position `i`. */
  lemma UpsertStored(docs: seq<Cart>, i: nat, c: Cart)
    requires DistinctIds(docs) && i < |docs| && docs[i].id == c.id
    ensures Upserted(docs, c) == docs[i := c]
  {
    IndexOfStored(docs, i);
  }

  /** How many positions hold a different cart afterwards. */
  function DiffCount(before: seq<Cart>, after: seq<Cart>): (n: nat)
    requires |before| == |after|
    ensures n <= |before|
    ensures n == 0 <==> before == after
  {
    if before == [] then 0
    else
      var m := |before| - 1;
      var n := DiffCount(before[..m], after[..m]) + (if before[m] != after[m] then 1 else 0);
      assert before == before[..m] + [before[m]] && after == after[..m] + [after[m]];
      n
  }

  /**
   * The document `SaveCart` writes for a cart: id, creation time (the given
   * one, else `now`) and lines are copied; the owner reference is not.
   */
  function StoredForm(id: Guid, createdAt: Option<Timestamp>, items: seq<CartItem>, now: Timestamp): (r: Cart)
    ensures r.id == id && r.items == items && r.userId == None
    ensures r.createdAt.Some? && (createdAt.Some? ==> r.createdAt == createdAt)
    ensures createdAt.None? ==> r.createdAt == Some(now)
  {
    Cart(id, None, Some(createdAt.GetOr(now)), items)
  }

  /** The "carts" collection as the store keeps it. */
  class CartCollection {
    /** Every stored cart, in `FindAll` order. */
    var docs: seq<Cart>

    ghost predicate Valid()
      reads this
    {
      DistinctIds(docs)
    }

    constructor ()
      ensures Valid() && docs == []
    {
      docs := [];
    }

    /** A copy of every stored cart, in enumeration order. */
    function FindAll(): (r: seq<Cart>)
      reads this
      ensures |r| == |docs| && forall c :: c in r <==> c in docs
      ensures Valid() ==> DistinctIds(r)
    {
      docs
    }

    function FindById(id: Guid): (r: Option<Cart>)
      reads this
      ensures r.Some? ==> r.value.id == id && r.value in docs
      ensures r.None? <==> forall k :: 0 <= k < |docs| ==> docs[k].id != id
    {
      FindIn(docs, id)
    }

    method Upsert(c: Cart)
      requires Valid()
      modifies this
      ensures Valid()
      ensures docs == Upserted(old(docs), c)
    {
      docs := Upserted(docs, c);
    }
  }
}
