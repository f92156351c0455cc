/**
 * The shopping cart: an ordered collection of at most seven product
 * references, with a redundant item counter kept beside it. The cart holds
 * references, so a product may sit in several carts (or twice in one) and a
 * change to its price is seen by every cart that holds it.
 */
module Shopping {
  import opened Catalogue

  /** The cart's capacity. */
  const MaxItems := 7

  /**
   * The position of the first item whose ID is `id`, or -1 when there is none
   * (the behaviour of `Array.prototype.findIndex`).
   */
  function FindIndex(items: seq<Product>, id: int): (r: int)
    ensures -1 <= r < |items|
    ensures r >= 0 ==> items[r].id == id
    ensures r >= 0 ==> forall j :: 0 <= j < r ==> items[j].id != id
    ensures r == -1 <==> forall j :: 0 <= j < |items| ==> items[j].id != id
  {
    if items == [] then -1
    else if items[0].id == id then 0
    else
      var k := FindIndex(items[1..], id);
      if k < 0 then -1 else k + 1
  }

  /**
   * The sequence without its element at position `i` (`splice(i, 1)`): the
   * elements before `i` stay where they are and those after it move down by one.
   */
  function RemoveAt(items: seq<Product>, i: int): (r: seq<Product>)
    requires 0 <= i < |items|
    ensures |r| == |items| - 1
    ensures forall j :: 0 <= j < i ==> r[j] == items[j]
    ensures forall j :: i <= j < |r| ==> r[j] == items[j + 1]
  {
    items[..i] + items[i + 1..]
  }

  /** Removing one position takes exactly that element out of the multiset of items. */
  lemma RemoveAtMultiset(items: seq<Product>, i: int)
    requires 0 <= i < |items|
    ensures multiset(RemoveAt(items, i)) + multiset{items[i]} == multiset(items)
  {
    assert items == items[..i] + [items[i]] + items[i + 1..];
  }

  /** The number of items carrying the ID `id`. */
  ghost function CountId(items: seq<Product>, id: int): nat
  {
    if items == [] then 0 else (if items[0].id == id then 1 else 0) + CountId(items[1..], id)
  }

  lemma {:induction false} CountIdAppend(a: seq<Product>, b: seq<Product>, id: int)
    ensures CountId(a + b, id) == CountId(a, id) + CountId(b, id)
    decreases |a|
  {
    if a != [] {
      assert (a + b)[1..] == a[1..] + b;
      CountIdAppend(a[1..], b, id);
    } else {
      assert a + b == b;
    }
  }

  /**
   * Removing the first match of `id` lowers the number of items carrying `id`
   * by exactly one and leaves the number carrying any other ID unchanged.
   */
  lemma RemoveFirstMatchCounts(items: seq<Product>, id: int, other: int)
    requires FindIndex(items, id) >= 0
    ensures CountId(RemoveAt(items, FindIndex(items, id)), id) == CountId(items, id) - 1
    ensures other != id ==> CountId(RemoveAt(items, FindIndex(items, id)), other) == CountId(items, other)
  {
    var i := FindIndex(items, id);
    assert items == items[..i] + ([items[i]] + items[i + 1..]);
    CountIdAppend(items[..i], [items[i]] + items[i + 1..], id);
    CountIdAppend(items[..i], [items[i]] + items[i + 1..], other);
    CountIdAppend([items[i]], items[i + 1..], id);
    CountIdAppend([items[i]], items[i + 1..], other);
    CountIdAppend(items[..i], items[i + 1..], id);
    CountIdAppend(items[..i], items[i + 1..], other);
  }

  /** No two items share an ID. */
  ghost predicate UniqueIds(items: seq<Product>)
  {
    forall j, k :: 0 <= j < k < |items| ==> items[j].id != items[k].id
  }

  /** When the IDs are unique, removing the first match leaves no item with that ID. */
  lemma RemoveUniqueLeavesNone(items: seq<Product>, id: int)
    requires UniqueIds(items) && FindIndex(items, id) >= 0
    ensures UniqueIds(RemoveAt(items, FindIndex(items, id)))
    ensures FindIndex(RemoveAt(items, FindIndex(items, id)), id) == -1
  {
  }

  /** The sum of the items' prices, added up from the first item to the last. */
  function SumPrices(items: seq<Product>): (total: real)
    reads items
    ensures items == [] ==> total == 0.0
    ensures (forall p :: p in items ==> p.price >= 0.0) ==> total >= 0.0
  {
    if items == [] then 0.0 else SumPrices(items[..|items| - 1]) + items[|items| - 1].price
  }

  /** Adding an item at the end adds its price to the total. */
  lemma SumPricesAppend(items: seq<Product>, p: Product)
    ensures SumPrices(items + [p]) == SumPrices(items) + p.price
  {
  }

  /** Removing the item at `i` takes exactly its price off the total. */
  lemma {:induction false} SumPricesRemoveAt(items: seq<Product>, i: int)
    requires 0 <= i < |items|
    ensures SumPrices(RemoveAt(items, i)) == SumPrices(items) - items[i].price
    decreases |items|
  {
    var last := |items| - 1;
    var front := items[..last];
    if i == last {
      assert RemoveAt(items, i) == front;
    } else {
      SumPricesRemoveAt(front, i);
      var r := RemoveAt(items, i);
      assert r[..|r| - 1] == RemoveAt(front, i);
      assert r[|r| - 1] == items[last];
    }
  }

  /** With every price inside (0, 1000), the total of n > 0 items lies in (0, 1000 * n); an empty cart totals 0. */
  lemma {:induction false} SumPricesBounds(items: seq<Product>)
    requires forall p :: p in items ==> InPriceRange(p.price)
    ensures items == [] ==> SumPrices(items) == 0.0
    ensures items != [] ==> 0.0 < SumPrices(items) < 1000.0 * |items| as real
    decreases |items|
  {
    if items != [] {
      var front := items[..|items| - 1];
      assert forall p :: p in front ==> p in items;
      assert items[|items| - 1] in items;
      SumPricesBounds(front);
      assert |items| as real == |front| as real + 1.0;
    }
  }

  class Cart {
    const owner: PersonName
    var itemNum: int
    var purchasedItems: seq<Product>

    /** The counter always agrees with the sequence, which never exceeds the capacity. */
    ghost predicate Valid()
      reads this
    {
      itemNum == |purchasedItems| <= MaxItems
    }

    constructor (owner: PersonName)
      ensures Valid() && this.owner == owner && purchasedItems == []
    {
      this.owner := owner;
      itemNum := 0;
      purchasedItems := [];
    }

    /** The cart is full exactly when it holds seven items. */
    function IsCartFull(): (full: bool)
      reads this
      requires Valid()
      ensures full <==> |purchasedItems| == MaxItems
    {
      itemNum >= MaxItems
    }

    /** Appends `item` unless the cart is full; a full cart is left untouched. */
    method AddItem(item: Product) returns (added: bool)
      requires Valid()
      modifies this
      ensures Valid()
      ensures added <==> old(|purchasedItems|) < MaxItems
      ensures purchasedItems == if added then old(purchasedItems) + [item] else old(purchasedItems)
    {
      if IsCartFull() {
        return false;
      }
      purchasedItems := purchasedItems + [item];
      itemNum := itemNum + 1;
      return true;
    }

    /**
     * Takes out the first item whose ID is `productId`, keeping the others in
     * order; when no item has that ID nothing changes.
     */
    method RemoveItem(productId: int) returns (removed: bool)
      requires Valid()
      modifies this
      ensures Valid()
      ensures removed <==> exists j :: 0 <= j < |old(purchasedItems)| && old(purchasedItems)[j].id == productId
      ensures removed ==> purchasedItems == RemoveAt(old(purchasedItems), FindIndex(old(purchasedItems), productId))
      ensures !removed ==> purchasedItems == old(purchasedItems)
    {
      var index := FindIndex(purchasedItems, productId);
      if index >= 0 {
        purchasedItems := RemoveAt(purchasedItems, index);
        itemNum := itemNum - 1;
        return true;
      }
      return false;
    }

    /**
     * The figures of the purchase summary: the number of items and the total of
     * their current prices, accumulated in cart order.
     */
    method Summary() returns (count: nat, total: real)
      ensures count == |purchasedItems|
      ensures total == SumPrices(purchasedItems)
    {
      total := 0.0;
      for i := 0 to |purchasedItems|
        invariant total == SumPrices(purchasedItems[..i])
      {
        assert purchasedItems[..i + 1][..i] == purchasedItems[..i];
        total := total + purchasedItems[i].price;
      }
      assert purchasedItems[..|purchasedItems|] == purchasedItems;
      count := |purchasedItems|;
    }
  }
}
