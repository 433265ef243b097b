/**
 * The cart store of the storefront: an ordered list of line items, at most
 * one per catalog id, that the provider replaces on every add, remove and
 * clear, and whose count is the sum of the quantities.
 */
module CartContext {
  import opened Wrappers

  /** One line of the cart. */
  datatype CartItem = CartItem(id: string, name: string, price: real, image: string, quantity: int)

  /** What addToCart receives: a catalog item whose quantity may be absent. */
  datatype Product = Product(id: string, name: string, price: real, image: string, quantity: Option<int>)

  /** The invariant of the store: no two lines share an id. */
  ghost predicate UniqueIds(items: seq<CartItem>)
  {
    forall i, j :: 0 <= i < j < |items| ==> items[i].id != items[j].id
  }

  predicate HasId(items: seq<CartItem>, id: string)
  {
    exists x :: x in items && x.id == id
  }

  /** `product.quantity || 1`: an absent or zero quantity adds one. */
  function AddedQuantity(p: Product): (q: int)
    ensures q != 0
    ensures p.quantity == None || p.quantity == Some(0) ==> q == 1
    ensures p.quantity.Some? && p.quantity.value != 0 ==> q == p.quantity.value
    ensures p.quantity.None? || p.quantity.value >= 0 ==> q >= 1
  {
    if p.quantity.Some? && p.quantity.value != 0 then p.quantity.value else 1
  }

  /** The line appended for a product that is not yet in the cart. */
  function NewLine(p: Product): (line: CartItem)
    ensures line.id == p.id && line.name == p.name && line.price == p.price && line.image == p.image
    ensures line.quantity == AddedQuantity(p) && line.quantity != 0
  {
    CartItem(p.id, p.name, p.price, p.image, AddedQuantity(p))
  }

  /** `findIndex`: the first position holding `id`, or -1 when there is none. */
  function IndexOf(items: seq<CartItem>, id: string): (k: int)
    ensures -1 <= k < |items|
    ensures k == -1 <==> !HasId(items, id)
    ensures k >= 0 ==> items[k].id == id && forall i :: 0 <= i < k ==> items[i].id != id
  {
    if items == [] then -1
    else if items[0].id == id then 0
    else
      var k := IndexOf(items[1..], id);
      assert forall i :: 1 <= i < |items| ==> items[i] == items[1..][i - 1];
      if k == -1 then -1 else k + 1
  }

  /** `reduce((total, item) => total + item.quantity, 0)`. */
  function SumQuantities(items: seq<CartItem>): (n: int)
    ensures items == [] ==> n == 0
    ensures (forall i :: 0 <= i < |items| ==> items[i].quantity >= 1) ==> n >= |items|
  {
    if items == [] then 0 else items[0].quantity + SumQuantities(items[1..])
  }

  lemma {:induction false} SumAppend(a: seq<CartItem>, b: seq<CartItem>)
    ensures SumQuantities(a + b) == SumQuantities(a) + SumQuantities(b)
  {
    if a == [] {
      assert a + b == b;
    } else {
      assert (a + b)[1..] == a[1..] + b;
      SumAppend(a[1..], b);
    }
  }

  /** Changing one line's quantity changes the sum by the same amount. */
  lemma {:induction false} SumUpdate(items: seq<CartItem>, k: nat, item: CartItem)
    requires k < |items|
    ensures SumQuantities(items[k := item]) == SumQuantities(items) - items[k].quantity + item.quantity
  {
    if k > 0 {
      assert items[k := item][1..] == items[1..][k - 1 := item];
      SumUpdate(items[1..], k - 1, item);
    }
  }

  /** Removing the line at k leaves the sum minus that line's quantity. */
  lemma {:induction false} SumRemoveAt(items: seq<CartItem>, k: nat)
    requires k < |items|
    ensures SumQuantities(items[..k] + items[k + 1..]) == SumQuantities(items) - items[k].quantity
  {
    assert items == items[..k] + ([items[k]] + items[k + 1..]);
    SumAppend(items[..k], [items[k]] + items[k + 1..]);
    SumAppend(items[..k], items[k + 1..]);
    assert ([items[k]] + items[k + 1..])[1..] == items[k + 1..];
  }

  /** The cart after addToCart(p). */
  function AddedTo(items: seq<CartItem>, p: Product): (r: seq<CartItem>)
    // an id already present: same length, only that line's quantity grows
    ensures HasId(items, p.id) ==>
      var k := IndexOf(items, p.id);
      |r| == |items| &&
      r[k] == items[k].(quantity := items[k].quantity + AddedQuantity(p)) &&
      forall i :: 0 <= i < |items| && i != k ==> r[i] == items[i]
    // a new id: one line appended at the end, the earlier lines kept in order
    ensures !HasId(items, p.id) ==> r == items + [NewLine(p)]
    ensures HasId(r, p.id)
    ensures SumQuantities(r) == SumQuantities(items) + AddedQuantity(p)
    ensures UniqueIds(items) ==> UniqueIds(r)
  {
    var k := IndexOf(items, p.id);
    if k > -1 then
      var line := items[k].(quantity := items[k].quantity + AddedQuantity(p));
      SumUpdate(items, k, line);
      items[k := line]
    else
      SumAppend(items, [NewLine(p)]);
      assert (items + [NewLine(p)])[|items|].id == p.id;
      items + [NewLine(p)]
  }

  /** `filter((item) => item.id !== id)`. */
  function RemovedFrom(items: seq<CartItem>, id: string): (r: seq<CartItem>)
    ensures forall x :: x in r <==> x in items && x.id != id
    ensures !HasId(r, id)
    ensures !HasId(items, id) ==> r == items
    ensures |r| <= |items|
  {
    if items == [] then []
    else
      var rest := RemovedFrom(items[1..], id);
      assert forall x :: x in items <==> x == items[0] || x in items[1..];
      if items[0].id != id then [items[0]] + rest else rest
  }

  /** The filter works line by line: on any cart it keeps the other lines in their order. */
  lemma {:induction false} RemoveConcat(a: seq<CartItem>, b: seq<CartItem>, id: string)
    ensures RemovedFrom(a + b, id) == RemovedFrom(a, id) + RemovedFrom(b, id)
  {
    if a == [] {
      assert a + b == b;
    } else {
      assert (a + b)[0] == a[0] && (a + b)[1..] == a[1..] + b;
      RemoveConcat(a[1..], b, id);
    }
  }

  /** Putting a line in front of a cart with other ids keeps the ids unique. */
  lemma UniqueCons(a: CartItem, rest: seq<CartItem>)
    requires UniqueIds(rest)
    requires forall x :: x in rest ==> x.id != a.id
    ensures UniqueIds([a] + rest)
  {
    var r := [a] + rest;
    forall i, j | 0 <= i < j < |r| ensures r[i].id != r[j].id {
      assert r[j] == rest[j - 1];
      if i > 0 {
        assert r[i] == rest[i - 1];
      }
    }
  }

  /** Removal keeps ids unique. */
  lemma {:induction false} RemovePreservesUnique(items: seq<CartItem>, id: string)
    requires UniqueIds(items)
    ensures UniqueIds(RemovedFrom(items, id))
  {
    if items != [] {
      var rest := RemovedFrom(items[1..], id);
      assert UniqueIds(items[1..]) by {
        forall i, j | 0 <= i < j < |items[1..]| ensures items[1..][i].id != items[1..][j].id {
          assert items[1..][i] == items[i + 1] && items[1..][j] == items[j + 1];
        }
      }
      RemovePreservesUnique(items[1..], id);
      if items[0].id != id {
        forall x | x in rest ensures x.id != items[0].id {
          var i :| 0 <= i < |items[1..]| && items[1..][i] == x;
          assert items[i + 1] == x;
        }
        UniqueCons(items[0], rest);
      }
    }
  }

  /** The tail of a cart with unique ids has unique ids, none equal to the head's. */
  lemma UniqueTail(items: seq<CartItem>)
    requires UniqueIds(items) && items != []
    ensures UniqueIds(items[1..])
    ensures !HasId(items[1..], items[0].id)
  {
    forall i, j | 0 <= i < j < |items[1..]| ensures items[1..][i].id != items[1..][j].id {
      assert items[1..][i] == items[i + 1] && items[1..][j] == items[j + 1];
    }
  }

  /**
   * In a cart with unique ids, removing the id that sits at position k drops
   * exactly that line and keeps the others in their order.
   */
  lemma {:induction false} RemoveAt(items: seq<CartItem>, k: nat)
    requires UniqueIds(items)
    requires k < |items|
    ensures RemovedFrom(items, items[k].id) == items[..k] + items[k + 1..]
  {
    UniqueTail(items);
    if k == 0 {
      RemoveHead(items);
    } else {
      var tail := items[1..];
      assert tail[k - 1] == items[k];
      RemoveAt(tail, k - 1);
      RemoveKeepsHead(items, items[k].id, tail[..k - 1] + tail[k..]);
      SplitAround(items, k);
    }
  }

  lemma SplitAround(items: seq<CartItem>, k: nat)
    requires 0 < k < |items|
    ensures [items[0]] + (items[1..][..k - 1] + items[1..][k..]) == items[..k] + items[k + 1..]
  {
    assert items[1..][..k - 1] == items[1..k] && items[1..][k..] == items[k + 1..];
    assert [items[0]] + items[1..k] == items[..k];
  }

  /** Removing the head's id from a cart with unique ids leaves the tail. */
  lemma RemoveHead(items: seq<CartItem>)
    requires items != [] && !HasId(items[1..], items[0].id)
    ensures RemovedFrom(items, items[0].id) == items[..0] + items[1..]
  {
    assert RemovedFrom(items, items[0].id) == RemovedFrom(items[1..], items[0].id);
    assert items[..0] + items[1..] == items[1..];
  }

  /** Removing an id the head does not have keeps the head in front. */
  lemma RemoveKeepsHead(items: seq<CartItem>, id: string, rest: seq<CartItem>)
    requires items != [] && items[0].id != id
    requires RemovedFrom(items[1..], id) == rest
    ensures RemovedFrom(items, id) == [items[0]] + rest
  {
  }

  /** Removing a present id from a cart with unique ids lowers the count by that line's quantity. */
  lemma RemoveCount(items: seq<CartItem>, k: nat)
    requires UniqueIds(items)
    requires k < |items|
    ensures SumQuantities(RemovedFrom(items, items[k].id)) == SumQuantities(items) - items[k].quantity
  {
    RemoveAt(items, k);
    SumRemoveAt(items, k);
  }

  /**
   * Adding a new product twice leaves one line for it, at the end, whose
   * quantity is the sum of both additions.
   */
  lemma AddSameTwice(items: seq<CartItem>, p: Product, q1: int, q2: int)
    requires !HasId(items, p.id)
    requires q1 != 0 && q2 != 0
    ensures AddedTo(AddedTo(items, p.(quantity := Some(q1))), p.(quantity := Some(q2)))
         == items + [NewLine(p).(quantity := q1 + q2)]
  {
    var once := AddedTo(items, p.(quantity := Some(q1)));
    assert once == items + [NewLine(p).(quantity := q1)];
    assert IndexOf(once, p.id) == |items| by {
      assert once[|items|].id == p.id;
      assert forall i :: 0 <= i < |items| ==> once[i] == items[i];
    }
  }

  /** Removing a product just added under a new id gives back the cart before the add. */
  lemma AddRemoveNew(items: seq<CartItem>, p: Product)
    requires UniqueIds(items) && !HasId(items, p.id)
    ensures RemovedFrom(AddedTo(items, p), p.id) == items
  {
    assert AddedTo(items, p) == items + [NewLine(p)];
    assert UniqueIds(AddedTo(items, p));
    RemoveAt(AddedTo(items, p), |items|);
  }

  /** The provider's state: the `items` state variable and its setters. */
  class CartProvider {
    var items: seq<CartItem>

    constructor ()
      ensures items == [] && UniqueIds(items)
    {
      items := [];
    }

    method AddToCart(p: Product)
      modifies this
      ensures items == AddedTo(old(items), p)
      ensures UniqueIds(old(items)) ==> UniqueIds(items)
      ensures GetCartCount() == old(GetCartCount()) + AddedQuantity(p)
    {
      var k := IndexOf(items, p.id);
      if k > -1 {
        var updated := items;
        updated := updated[k := updated[k].(quantity := updated[k].quantity + AddedQuantity(p))];
        items := updated;
      } else {
        items := items + [NewLine(p)];
      }
    }

    method RemoveFromCart(id: string)
      modifies this
      ensures items == RemovedFrom(old(items), id)
      ensures UniqueIds(old(items)) ==> UniqueIds(items)
      ensures !HasId(old(items), id) ==> items == old(items)
    {
      if UniqueIds(items) {
        RemovePreservesUnique(items, id);
      }
      items := RemovedFrom(items, id);
    }

    method ClearCart()
      modifies this
      ensures items == [] && GetCartCount() == 0
    {
      items := [];
    }

    function GetCartCount(): (n: int)
      reads this
      ensures items == [] ==> n == 0
      ensures (forall i :: 0 <= i < |items| ==> items[i].quantity >= 1) ==> n >= |items|
    {
      SumQuantities(items)
    }
  }

  /**
   * useCart: reading the context outside a provider throws, a programming
   * error rather than a result; here it is a precondition.
   */
  function UseCart(context: Option<CartProvider>): (c: CartProvider)
    requires context.Some?
    ensures context == Some(c)
  {
    context.value
  }
}
