/**
 * The shopping-cart store: an ordered list of line items keyed by product id,
 * changed by AddProduct, RemoveProduct and ClearCart, with two aggregates
 * (item count, total price) recomputed from the items on demand.
 */
module Cart {
  import opened Wrappers

  /** One line of the cart. Prices are whole cents, so sums are exact. */
  datatype CartItem = CartItem(id: int, name: string, price: int, imageUrl: string, quantity: int)

  /** What a caller hands to AddProduct; the price may be missing. */
  datatype Product = Product(id: int, name: string, price: Option<int>, imageUrl: string)

  // ---------------------------------------------------------------------------
  // Invariants of a cart
  // ---------------------------------------------------------------------------

  /** No two lines carry the same product id. */
  ghost predicate UniqueIds(s: seq<CartItem>) {
    forall i, j :: 0 <= i < j < |s| ==> s[i].id != s[j].id
  }

  /** Every line holds at least one unit. */
  ghost predicate PositiveQuantities(s: seq<CartItem>) {
    forall i :: 0 <= i < |s| ==> s[i].quantity >= 1
  }

  ghost predicate WellFormed(s: seq<CartItem>) {
    UniqueIds(s) && PositiveQuantities(s)
  }

  /** Some line carries product `id`. */
  ghost predicate Contains(s: seq<CartItem>, id: int) {
    exists i :: 0 <= i < |s| && s[i].id == id
  }

  // ---------------------------------------------------------------------------
  // The two aggregates: left folds over the items, as `reduce` computes them
  // ---------------------------------------------------------------------------

  /** Number of units in the cart: the sum of the quantities. */
  function ItemCount(s: seq<CartItem>): (n: int)
    ensures s == [] ==> n == 0
    ensures PositiveQuantities(s) ==> n >= |s|
  {
    if s == [] then 0 else ItemCount(s[..|s| - 1]) + s[|s| - 1].quantity
  }

  /** Price of the cart: the sum of price times quantity over the lines. */
  function TotalPrice(s: seq<CartItem>): (t: int)
    ensures s == [] ==> t == 0
    ensures (forall i :: 0 <= i < |s| ==> s[i].price >= 0 && s[i].quantity >= 0) ==> t >= 0
  {
    if s == [] then 0 else TotalPrice(s[..|s| - 1]) + s[|s| - 1].price * s[|s| - 1].quantity
  }

  // ---------------------------------------------------------------------------
  // The library calls the actions use: `find` and `filter`
  // ---------------------------------------------------------------------------

  /** Index of the first line with product `id`, if any (Array.prototype.find). */
  function Find(s: seq<CartItem>, id: int): (r: Option<nat>)
    ensures r.Some? ==> r.value < |s| && s[r.value].id == id
    ensures r.Some? ==> forall j :: 0 <= j < r.value ==> s[j].id != id
    ensures r.None? <==> !Contains(s, id)
  {
    if s == [] then None
    else if s[0].id == id then Some(0)
    else match Find(s[1..], id)
      case None => None
      case Some(k) => Some(k + 1)
  }

  /** The lines whose id differs from `id`, in their order (Array.prototype.filter). */
  function Without(s: seq<CartItem>, id: int): (r: seq<CartItem>)
    ensures |r| <= |s|
    ensures forall x :: x in r <==> x in s && x.id != id
  {
    if s == [] then []
    else Without(s[..|s| - 1], id) + (if s[|s| - 1].id == id then [] else [s[|s| - 1]])
  }

  // ---------------------------------------------------------------------------
  // The effect of each action on the items
  // ---------------------------------------------------------------------------

  /** The line pushed for a product not yet in the cart; a missing price counts as 0. */
  function NewLine(p: Product): (x: CartItem)
    ensures x.id == p.id && x.name == p.name && x.imageUrl == p.imageUrl
    ensures x.price == (if p.price.Some? then p.price.value else 0)
    ensures x.quantity == 1
  {
    CartItem(p.id, p.name, p.price.GetOr(0), p.imageUrl, 1)
  }

  /** Items after addProduct: bump the first matching line, else append a new one. */
  function Added(s: seq<CartItem>, p: Product): (r: seq<CartItem>)
    ensures |r| == if Find(s, p.id).Some? then |s| else |s| + 1
  {
    match Find(s, p.id)
    case Some(i) => s[i := s[i].(quantity := s[i].quantity + 1)]
    case None => s + [NewLine(p)]
  }

  /**
   * Items after removeProduct: nothing when the id is absent; decrement the
   * first matching line when it holds more than one unit; otherwise drop every
   * line with that id.
   */
  function Removed(s: seq<CartItem>, id: int): (r: seq<CartItem>)
    ensures |r| <= |s|
    ensures Find(s, id).None? ==> r == s
  {
    match Find(s, id)
    case None => s
    case Some(i) =>
      if s[i].quantity > 1 then s[i := s[i].(quantity := s[i].quantity - 1)]
      else Without(s, id)
  }

  // ---------------------------------------------------------------------------
  // Aggregates over concatenation, update and deletion
  // ---------------------------------------------------------------------------

  lemma {:induction false} ItemCountConcat(a: seq<CartItem>, b: seq<CartItem>)
    ensures ItemCount(a + b) == ItemCount(a) + ItemCount(b)
  {
    if b == [] {
      assert a + b == a;
    } else {
      assert (a + b)[..|a + b| - 1] == a + b[..|b| - 1];
      ItemCountConcat(a, b[..|b| - 1]);
    }
  }

  lemma {:induction false} TotalPriceConcat(a: seq<CartItem>, b: seq<CartItem>)
    ensures TotalPrice(a + b) == TotalPrice(a) + TotalPrice(b)
  {
    if b == [] {
      assert a + b == a;
    } else {
      assert (a + b)[..|a + b| - 1] == a + b[..|b| - 1];
      TotalPriceConcat(a, b[..|b| - 1]);
    }
  }

  /** Replacing line `i` by `x` changes each aggregate by the difference of the two lines. */
  lemma ReplaceLine(s: seq<CartItem>, i: nat, x: CartItem)
    requires i < |s|
    ensures ItemCount(s[i := x]) == ItemCount(s) - s[i].quantity + x.quantity
    ensures TotalPrice(s[i := x]) == TotalPrice(s) - TotalPrice([s[i]]) + TotalPrice([x])
  {
    assert s == s[..i] + [s[i]] + s[i + 1..];
    assert s[i := x] == s[..i] + [x] + s[i + 1..];
    ItemCountConcat(s[..i] + [s[i]], s[i + 1..]);
    ItemCountConcat(s[..i], [s[i]]);
    ItemCountConcat(s[..i] + [x], s[i + 1..]);
    ItemCountConcat(s[..i], [x]);
    TotalPriceConcat(s[..i] + [s[i]], s[i + 1..]);
    TotalPriceConcat(s[..i], [s[i]]);
    TotalPriceConcat(s[..i] + [x], s[i + 1..]);
    TotalPriceConcat(s[..i], [x]);
  }

  /** A list is its prefix before `i`, line `i`, and the rest. */
  lemma SplitAt(s: seq<CartItem>, i: nat)
    requires i < |s|
    ensures s == (s[..i] + [s[i]]) + s[i + 1..]
  {
  }

  /** Deleting line `i` before the last line commutes with taking the last line off. */
  lemma DeleteBeforeLast(s: seq<CartItem>, i: nat)
    requires i < |s| - 1
    ensures s[..|s| - 1][..i] + s[..|s| - 1][i + 1..] + [s[|s| - 1]] == s[..i] + s[i + 1..]
  {
  }

  /** Deleting line `i` takes that line's units off the item count. */
  lemma DeleteLineCount(s: seq<CartItem>, i: nat)
    requires i < |s|
    ensures ItemCount(s[..i] + s[i + 1..]) == ItemCount(s) - s[i].quantity
  {
    var a, b := s[..i], s[i + 1..];
    SplitAt(s, i);
    ItemCountConcat(a + [s[i]], b);
    ItemCountConcat(a, [s[i]]);
    ItemCountConcat(a, b);
  }

  /** Deleting line `i` takes that line's total off the cart's total. */
  lemma DeleteLinePrice(s: seq<CartItem>, i: nat)
    requires i < |s|
    ensures TotalPrice(s[..i] + s[i + 1..]) == TotalPrice(s) - TotalPrice([s[i]])
  {
    var a, b := s[..i], s[i + 1..];
    SplitAt(s, i);
    TotalPriceConcat(a + [s[i]], b);
    TotalPriceConcat(a, [s[i]]);
    TotalPriceConcat(a, b);
  }

  /** A line with one more unit adds one unit price to its line total. */
  lemma LineTotalStep(x: CartItem, y: CartItem)
    requires y == x.(quantity := x.quantity + 1)
    ensures TotalPrice([y]) == TotalPrice([x]) + x.price
  {
  }

  /** A freshly pushed line is worth its unit price, which is 0 when none was supplied. */
  lemma NewLineTotal(p: Product)
    ensures TotalPrice([NewLine(p)]) == p.price.GetOr(0)
  {
  }

  /** Deleting one line keeps a cart well formed. */
  lemma DeleteKeepsWellFormed(s: seq<CartItem>, i: nat)
    requires WellFormed(s) && i < |s|
    ensures WellFormed(s[..i] + s[i + 1..])
  {
  }

  // ---------------------------------------------------------------------------
  // Filtering
  // ---------------------------------------------------------------------------

  /** Filtering out an id no line carries changes nothing. */
  lemma {:induction false} WithoutAbsent(s: seq<CartItem>, id: int)
    requires forall j :: 0 <= j < |s| ==> s[j].id != id
    ensures Without(s, id) == s
  {
    if s != [] {
      WithoutAbsent(s[..|s| - 1], id);
      assert s[..|s| - 1] + [s[|s| - 1]] == s;
    }
  }

  /** Filtering distributes over concatenation: kept lines keep their order and multiplicity. */
  lemma {:induction false} WithoutConcat(a: seq<CartItem>, b: seq<CartItem>, id: int)
    ensures Without(a + b, id) == Without(a, id) + Without(b, id)
  {
    if b == [] {
      assert a + b == a;
    } else {
      assert (a + b)[..|a + b| - 1] == a + b[..|b| - 1];
      WithoutConcat(a, b[..|b| - 1], id);
    }
  }

  /** In a cart with unique ids, filtering out the id of line `i` deletes exactly that line. */
  lemma {:induction false} WithoutUnique(s: seq<CartItem>, id: int, i: nat)
    requires UniqueIds(s) && i < |s| && s[i].id == id
    ensures Without(s, id) == s[..i] + s[i + 1..]
  {
    var n := |s| - 1;
    var front := s[..n];
    assert Without(s, id) == Without(front, id) + (if s[n].id == id then [] else [s[n]]);
    if i == n {
      assert forall j :: 0 <= j < |front| ==> front[j].id != id by {
        forall j | 0 <= j < |front| ensures front[j].id != id {
          assert front[j] == s[j];
        }
      }
      WithoutAbsent(front, id);
      assert s[..i] + s[i + 1..] == front;
    } else {
      assert UniqueIds(front) by {
        forall j, k | 0 <= j < k < |front| ensures front[j].id != front[k].id {
          assert front[j] == s[j] && front[k] == s[k];
        }
      }
      assert s[n].id != id;
      WithoutUnique(front, id, i);
      DeleteBeforeLast(s, i);
    }
  }

  // ---------------------------------------------------------------------------
  // addProduct
  // ---------------------------------------------------------------------------

  /**
   * Adding a product whose id is already present (line `i` is its first
   * match) raises that line's quantity by one and keeps its id, name, price
   * and image from the first add; every other line is untouched.
   */
  lemma AddRepeat(s: seq<CartItem>, p: Product, i: nat)
    requires i < |s| && s[i].id == p.id
    requires forall j :: 0 <= j < i ==> s[j].id != p.id
    ensures |Added(s, p)| == |s|
    ensures Added(s, p)[i].quantity == s[i].quantity + 1
    ensures Added(s, p)[i].id == s[i].id && Added(s, p)[i].name == s[i].name
    ensures Added(s, p)[i].price == s[i].price && Added(s, p)[i].imageUrl == s[i].imageUrl
    ensures forall j :: 0 <= j < |s| && j != i ==> Added(s, p)[j] == s[j]
  {
    assert Find(s, p.id) == Some(i);
  }

  /**
   * Adding a product whose id is absent appends one line at the end with
   * quantity 1 and the supplied price (0 when none is supplied); the earlier
   * lines keep their order and contents.
   */
  lemma AddFresh(s: seq<CartItem>, p: Product)
    requires !Contains(s, p.id)
    ensures |Added(s, p)| == |s| + 1
    ensures Added(s, p)[..|s|] == s
    ensures Added(s, p)[|s|] == CartItem(p.id, p.name, if p.price.Some? then p.price.value else 0, p.imageUrl, 1)
  {
  }

  /** Adding keeps ids unique and quantities positive. */
  lemma AddKeepsWellFormed(s: seq<CartItem>, p: Product)
    requires WellFormed(s)
    ensures WellFormed(Added(s, p))
  {
  }

  /** Every add puts exactly one more unit in the cart. */
  lemma AddItemCount(s: seq<CartItem>, p: Product)
    ensures ItemCount(Added(s, p)) == ItemCount(s) + 1
  {
    match Find(s, p.id)
    case Some(i) => ReplaceLine(s, i, s[i].(quantity := s[i].quantity + 1));
    case None => ItemCountConcat(s, [NewLine(p)]);
  }

  /**
   * Every add raises the total by the stored price of the affected line: on a
   * repeat add the price kept from the first add, not the one passed now.
   */
  lemma AddTotalPrice(s: seq<CartItem>, p: Product)
    ensures TotalPrice(Added(s, p)) == TotalPrice(s) + match Find(s, p.id)
      case Some(i) => s[i].price
      case None => p.price.GetOr(0)
  {
    match Find(s, p.id)
    case Some(i) =>
      var x := s[i].(quantity := s[i].quantity + 1);
      ReplaceLine(s, i, x);
      LineTotalStep(s[i], x);
    case None =>
      TotalPriceConcat(s, [NewLine(p)]);
      NewLineTotal(p);
  }

  // ---------------------------------------------------------------------------
  // removeProduct
  // ---------------------------------------------------------------------------

  /** Removing an id no line carries leaves the items as they were. */
  lemma RemoveAbsent(s: seq<CartItem>, id: int)
    requires !Contains(s, id)
    ensures Removed(s, id) == s
  {
  }

  /**
   * Removing an id whose first line holds more than one unit decrements that
   * line in place; every other line is untouched.
   */
  lemma RemoveDecrement(s: seq<CartItem>, id: int, i: nat)
    requires i < |s| && s[i].id == id && s[i].quantity > 1
    requires forall j :: 0 <= j < i ==> s[j].id != id
    ensures |Removed(s, id)| == |s|
    ensures Removed(s, id)[i] == s[i].(quantity := s[i].quantity - 1)
    ensures forall j :: 0 <= j < |s| && j != i ==> Removed(s, id)[j] == s[j]
  {
    assert Find(s, id) == Some(i);
  }

  /**
   * In a cart with unique ids, removing the id of a single-unit line deletes
   * that line and keeps the others in their relative order.
   */
  lemma RemoveLastUnit(s: seq<CartItem>, id: int, i: nat)
    requires UniqueIds(s) && i < |s| && s[i].id == id && s[i].quantity <= 1
    ensures Removed(s, id) == s[..i] + s[i + 1..]
  {
    assert Find(s, id) == Some(i);
    WithoutUnique(s, id, i);
  }

  /** Removing keeps ids unique and quantities positive. */
  lemma RemoveKeepsWellFormed(s: seq<CartItem>, id: int)
    requires WellFormed(s)
    ensures WellFormed(Removed(s, id))
  {
    match Find(s, id)
    case None =>
    case Some(i) =>
      if s[i].quantity <= 1 {
        RemoveLastUnit(s, id, i);
        DeleteKeepsWellFormed(s, i);
      }
  }

  /**
   * In a well-formed cart, removing a present id takes away exactly one unit
   * and that line's unit price from the total.
   */
  lemma RemoveAggregates(s: seq<CartItem>, id: int, i: nat)
    requires WellFormed(s) && i < |s| && s[i].id == id
    ensures ItemCount(Removed(s, id)) == ItemCount(s) - 1
    ensures TotalPrice(Removed(s, id)) == TotalPrice(s) - s[i].price
  {
    assert Find(s, id) == Some(i);
    if s[i].quantity > 1 {
      var x := s[i].(quantity := s[i].quantity - 1);
      ReplaceLine(s, i, x);
      LineTotalStep(x, s[i]);
    } else {
      RemoveLastUnit(s, id, i);
      DeleteLineCount(s, i);
      DeleteLinePrice(s, i);
      assert TotalPrice([s[i]]) == s[i].price * 1;
    }
  }

  /** Adding a product that was not in the cart and then removing it restores the items. */
  lemma AddThenRemove(s: seq<CartItem>, p: Product)
    requires !Contains(s, p.id)
    ensures Removed(Added(s, p), p.id) == s
  {
    var t := s + [NewLine(p)];
    assert t[|s|].id == p.id;
    assert t[..|t| - 1] == s;
    WithoutAbsent(s, p.id);
  }

  // ---------------------------------------------------------------------------
  // The store
  // ---------------------------------------------------------------------------

  /**
   * The cart store. `items` is the one state cell; the aggregates are
   * ItemCount(items) and TotalPrice(items), recomputed when read.
   */
  class CartStore {
    var items: seq<CartItem>

    /** The invariant every action preserves. */
    ghost predicate Valid()
      reads this
    {
      WellFormed(items)
    }

    /** The cart starts empty. */
    constructor ()
      ensures items == [] && Valid()
    {
      items := [];
    }

    /** Bumps the line for `product.id`, or appends a new line for it. */
    method AddProduct(product: Product)
      modifies this
      ensures items == Added(old(items), product)
      ensures ItemCount(items) == old(ItemCount(items)) + 1
      ensures TotalPrice(items) == old(TotalPrice(items)) + match old(Find(items, product.id))
        case Some(i) => old(items[i].price)
        case None => product.price.GetOr(0)
      ensures old(Valid()) ==> Valid()
    {
      AddItemCount(items, product);
      AddTotalPrice(items, product);
      if old(Valid()) {
        AddKeepsWellFormed(items, product);
      }
      var existing := Find(items, product.id);
      var productPrice := product.price.GetOr(0);
      if existing.Some? {
        var i := existing.value;
        items := items[i := items[i].(quantity := items[i].quantity + 1)];
      } else {
        items := items + [CartItem(product.id, product.name, productPrice, product.imageUrl, 1)];
      }
    }

    /** Takes one unit of `productId` out of the cart, dropping its line at the last unit. */
    method RemoveProduct(productId: int)
      modifies this
      ensures items == Removed(old(items), productId)
      ensures old(Valid()) ==> Valid()
      ensures old(Valid()) && old(Contains(items, productId)) ==> ItemCount(items) == old(ItemCount(items)) - 1
    {
      if Valid() {
        RemoveKeepsWellFormed(items, productId);
        if Contains(items, productId) {
          RemoveAggregates(items, productId, Find(items, productId).value);
        }
      }
      var existing := Find(items, productId);
      if existing.Some? {
        var i := existing.value;
        if items[i].quantity > 1 {
          items := items[i := items[i].(quantity := items[i].quantity - 1)];
        } else {
          items := Without(items, productId);
        }
      }
    }

    /** Empties the cart, whatever it held. */
    method ClearCart()
      modifies this
      ensures items == [] && ItemCount(items) == 0 && TotalPrice(items) == 0
      ensures Valid()
    {
      items := [];
    }
  }

  /**
   * A client of the store: one product added twice and removed twice, using
   * only the contracts above.
   */
  method RepeatAddScenario() {
    var cart := new CartStore();
    var a := Product(1, "A", Some(10), "x");
    cart.AddProduct(a);
    assert cart.items == [CartItem(1, "A", 10, "x", 1)];
    cart.AddProduct(a.(price := Some(99)));
    assert cart.items == [CartItem(1, "A", 10, "x", 2)];
    assert ItemCount(cart.items) == 2 && TotalPrice(cart.items) == 20;
    cart.RemoveProduct(1);
    assert cart.items == [CartItem(1, "A", 10, "x", 1)];
    cart.RemoveProduct(1);
    assert cart.items == [];
  }
}
