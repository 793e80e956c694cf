/**
  The shopping cart of the storefront: a sequence of entries, each holding a
  product and a quantity. Every cart operation is a pure
  transformation of that sequence (Array.prototype find, map, filter and
  reduce in the original), so each is a function here, and the properties
  the storefront relies on are lemmas about those functions.
*/
module CartModel {

  datatype Option<T> = None | Some(value: T)

  /** A catalog product. The price is in integer cents. */
  datatype Product = Product(id: string, name: string, description: string, price: nat, imageUrl: string)

  /** One cart entry: the product as it was passed in when added, and a quantity. */
  datatype CartItem = CartItem(product: Product, quantity: int)

  type Cart = seq<CartItem>

  /** Some entry of the cart carries the product id `id`. */
  predicate InCart(items: Cart, id: string) {
    exists i :: 0 <= i < |items| && items[i].product.id == id
  }

  /** No two entries carry the same product id. */
  predicate UniqueIds(items: Cart) {
    forall i, j :: 0 <= i < j < |items| ==> items[i].product.id != items[j].product.id
  }

  /** Every entry has a quantity of at least one. */
  predicate PositiveQuantities(items: Cart) {
    forall i :: 0 <= i < |items| ==> items[i].quantity >= 1
  }

  /** The cart invariant the storefront's operations keep. */
  predicate Valid(items: Cart) {
    UniqueIds(items) && PositiveQuantities(items)
  }

  // ---------------------------------------------------------------------------
  // The array primitives the original uses, specialised to cart entries
  // ---------------------------------------------------------------------------

  /** An entry with product id `id`, if any (the scan stops at the first). */
  function Find(items: Cart, id: string): (r: Option<CartItem>)
    ensures r.Some? <==> InCart(items, id)
    ensures r.Some? ==> r.value in items && r.value.product.id == id
  {
    if items == [] then None
    else if items[0].product.id == id then Some(items[0])
    else
      var r := Find(items[1..], id);
      assert r.Some? ==> r.value in items;
      assert InCart(items[1..], id) ==> InCart(items, id) by {
        if InCart(items[1..], id) {
          var i :| 0 <= i < |items[1..]| && items[1..][i].product.id == id;
          assert items[i + 1].product.id == id;
        }
      }
      r
  }

  /** Applies `f` to every entry, keeping length and order. */
  function Map(items: Cart, f: CartItem -> CartItem): (r: Cart)
    ensures |r| == |items|
    ensures forall i :: 0 <= i < |items| ==> r[i] == f(items[i])
  {
    if items == [] then [] else [f(items[0])] + Map(items[1..], f)
  }

  /** The entries that satisfy `keep`, in their original order. */
  function Filter(items: Cart, keep: CartItem -> bool): (r: Cart)
    ensures |r| <= |items|
    ensures forall x :: x in r <==> x in items && keep(x)
  {
    if items == [] then []
    else
      var rest := Filter(items[1..], keep);
      assert forall x :: x in items <==> x == items[0] || x in items[1..];
      if keep(items[0]) then [items[0]] + rest else rest
  }

  lemma {:induction false} FilterAppend(a: Cart, b: Cart, keep: CartItem -> bool)
    ensures Filter(a + b, keep) == Filter(a, keep) + Filter(b, keep)
  {
    if a == [] {
      assert a + b == b;
    } else {
      assert (a + b)[1..] == a[1..] + b;
      FilterAppend(a[1..], b, keep);
    }
  }

  lemma {:induction false} FilterKeepsAll(items: Cart, keep: CartItem -> bool)
    requires forall i :: 0 <= i < |items| ==> keep(items[i])
    ensures Filter(items, keep) == items
  {
    if items != [] {
      FilterKeepsAll(items[1..], keep);
    }
  }

  // ---------------------------------------------------------------------------
  // Cart operations
  // ---------------------------------------------------------------------------

  /** The entry with quantity raised by one when it matches `id`. */
  function Bump(id: string): CartItem -> CartItem {
    (item: CartItem) => if item.product.id == id then item.(quantity := item.quantity + 1) else item
  }

  /** The entry with quantity set to `quantity` when it matches `id`. */
  function SetTo(id: string, quantity: int): CartItem -> CartItem {
    (item: CartItem) => if item.product.id == id then item.(quantity := quantity) else item
  }

  /** Whether the entry does not carry product id `id`. */
  function Other(id: string): CartItem -> bool {
    (item: CartItem) => item.product.id != id
  }

  /**
    Adding a product: when an entry for its id exists, every entry with that
    id gets one more unit; otherwise a new entry with quantity one is
    appended.
  */
  function AddToCart(items: Cart, product: Product): (r: Cart)
    ensures InCart(r, product.id)
  {
    if Find(items, product.id).Some? then Map(items, Bump(product.id))
    else
      var r := items + [CartItem(product, 1)];
      assert r[|items|].product.id == product.id;
      r
  }

  /** Removing a product: every entry with that id is dropped. */
  function RemoveFromCart(items: Cart, id: string): (r: Cart)
    ensures !InCart(r, id)
    ensures forall x :: x in r <==> x in items && x.product.id != id
  {
    var r := Filter(items, Other(id));
    assert forall i :: 0 <= i < |r| ==> r[i] in r;
    r
  }

  /**
    Setting a quantity: a quantity of zero or less removes the product;
    otherwise every entry with that id takes the new quantity.
  */
  function UpdateQuantity(items: Cart, id: string, quantity: int): (r: Cart)
    ensures |r| <= |items|
    ensures quantity > 0 ==> |r| == |items|
  {
    if quantity <= 0 then RemoveFromCart(items, id)
    else Map(items, SetTo(id, quantity))
  }

  /** Emptying the cart. */
  function ClearCart(): (r: Cart)
    ensures !exists id :: InCart(r, id)
  {
    []
  }

  // ---------------------------------------------------------------------------
  // The total
  // ---------------------------------------------------------------------------

  /** What one entry contributes to the total, in cents. */
  function LineTotal(item: CartItem): int {
    item.product.price * item.quantity
  }

  /** Reference definition: the sum of price times quantity over the entries. */
  function Sum(items: Cart): int {
    if items == [] then 0 else LineTotal(items[0]) + Sum(items[1..])
  }

  /** The left fold `reduce((acc, item) => acc + price * quantity, acc)`. */
  function Reduce(items: Cart, acc: int): (r: int)
    ensures r == acc + Sum(items)
  {
    if items == [] then acc else Reduce(items[1..], acc + LineTotal(items[0]))
  }

  /** The cart total as the original computes it, starting the fold at 0. */
  function Total(items: Cart): (r: int)
    ensures r == Sum(items)
    ensures items == [] ==> r == 0
  {
    Reduce(items, 0)
  }

  // ---------------------------------------------------------------------------
  // Loading the saved cart
  // ---------------------------------------------------------------------------

  /**
    The cart the storefront starts with. Without a browser window, or with no
    saved text, or an empty one, it starts empty; otherwise it is what the
    saved text parses to, and empty when parsing fails. `parse` stands for the
    JSON parser; it yields None where the parser throws. What it yields is
    not checked against the cart invariant.
  */
  function LoadCart(hasWindow: bool, saved: Option<string>, parse: string -> Option<Cart>): (r: Cart)
    ensures !hasWindow || saved == None || saved == Some("") ==> r == []
    ensures hasWindow && saved.Some? && saved.value != "" ==>
      r == (if parse(saved.value).Some? then parse(saved.value).value else [])
  {
    if !hasWindow then []
    else if saved == None || saved.value == "" then []
    else match parse(saved.value)
      case None => []
      case Some(items) => items
  }

  // ---------------------------------------------------------------------------
  // Adding
  // ---------------------------------------------------------------------------

  /** Adding a product already in the cart raises that one entry by one unit. */
  lemma AddExisting(items: Cart, product: Product, j: nat)
    requires UniqueIds(items)
    requires j < |items| && items[j].product.id == product.id
    ensures AddToCart(items, product) == items[j := items[j].(quantity := items[j].quantity + 1)]
  {
    assert Find(items, product.id).Some?;
    var r := AddToCart(items, product);
    var expected := items[j := items[j].(quantity := items[j].quantity + 1)];
    assert |r| == |expected|;
    forall i | 0 <= i < |items| ensures r[i] == expected[i] {
      assert i != j ==> items[i].product.id != product.id;
    }
  }

  /** Adding a product not in the cart appends one entry with quantity one. */
  lemma AddAbsent(items: Cart, product: Product)
    requires !InCart(items, product.id)
    ensures AddToCart(items, product) == items + [CartItem(product, 1)]
  {
  }

  /** Mapping with an id that no entry carries changes nothing. */
  lemma {:induction false} MapUnmatched(items: Cart, id: string, f: CartItem -> CartItem)
    requires forall i :: 0 <= i < |items| ==> items[i].product.id != id
    requires forall x: CartItem :: x.product.id != id ==> f(x) == x
    ensures Map(items, f) == items
  {
    if items != [] {
      MapUnmatched(items[1..], id, f);
    }
  }

  /** Adding a product not in the cart twice leaves one entry with quantity two. */
  lemma {:induction false} AddTwiceAbsent(items: Cart, product: Product)
    requires !InCart(items, product.id)
    ensures AddToCart(AddToCart(items, product), product) == items + [CartItem(product, 2)]
  {
    var once := items + [CartItem(product, 1)];
    AddAbsent(items, product);
    assert once[|items|].product.id == product.id;
    assert Find(once, product.id).Some?;
    MapUnmatched(items, product.id, Bump(product.id));
    var twice := Map(once, Bump(product.id));
    assert twice == Map(items, Bump(product.id)) + [CartItem(product, 2)] by {
      assert |twice| == |items| + 1;
      forall i | 0 <= i < |twice|
        ensures twice[i] == (Map(items, Bump(product.id)) + [CartItem(product, 2)])[i]
      {
        if i < |items| {
          assert once[i] == items[i];
        }
      }
    }
  }

  lemma AddKeepsValid(items: Cart, product: Product)
    requires Valid(items)
    ensures Valid(AddToCart(items, product))
  {
    if !InCart(items, product.id) {
      AddAbsent(items, product);
      var r := items + [CartItem(product, 1)];
      forall i, j | 0 <= i < j < |r| ensures r[i].product.id != r[j].product.id {
        if j == |items| {
          assert r[i] == items[i];
        }
      }
    }
  }

  // ---------------------------------------------------------------------------
  // Removing
  // ---------------------------------------------------------------------------

  /** Removing a product that is not in the cart changes nothing. */
  lemma RemoveAbsent(items: Cart, id: string)
    requires !InCart(items, id)
    ensures RemoveFromCart(items, id) == items
  {
    FilterKeepsAll(items, Other(id));
  }

  /** Removing twice is removing once. */
  lemma RemoveIdempotent(items: Cart, id: string)
    ensures RemoveFromCart(RemoveFromCart(items, id), id) == RemoveFromCart(items, id)
  {
    RemoveAbsent(RemoveFromCart(items, id), id);
  }

  /**
    Removing a product that sits at index j of a cart with unique ids takes
    out exactly that entry; the others keep their relative order.
  */
  lemma {:induction false} RemoveAt(items: Cart, id: string, j: nat)
    requires UniqueIds(items)
    requires j < |items| && items[j].product.id == id
    ensures RemoveFromCart(items, id) == items[..j] + items[j + 1..]
  {
    var before, after := items[..j], items[j + 1..];
    assert items == before + [items[j]] + after;
    forall i | 0 <= i < |before| ensures Other(id)(before[i]) {
      assert before[i] == items[i];
    }
    forall i | 0 <= i < |after| ensures Other(id)(after[i]) {
      assert after[i] == items[j + 1 + i];
    }
    FilterDropsOne(before, items[j], after, Other(id));
  }

  /** Filtering out the one entry that fails the test leaves the entries around it. */
  lemma {:induction false} FilterDropsOne(before: Cart, x: CartItem, after: Cart, keep: CartItem -> bool)
    requires forall i :: 0 <= i < |before| ==> keep(before[i])
    requires !keep(x)
    requires forall i :: 0 <= i < |after| ==> keep(after[i])
    ensures Filter(before + [x] + after, keep) == before + after
  {
    assert [x][1..] == [];
    calc {
      Filter(before + [x] + after, keep);
    == { FilterAppend(before + [x], after, keep); }
      Filter(before + [x], keep) + Filter(after, keep);
    == { FilterAppend(before, [x], keep); }
      Filter(before, keep) + Filter([x], keep) + Filter(after, keep);
    == { FilterKeepsAll(before, keep); FilterKeepsAll(after, keep); }
      before + [] + after;
    }
    assert before + [] + after == before + after;
  }

  /** Keeping some entries of a valid cart gives a valid cart. */
  lemma {:induction false} FilterKeepsValid(items: Cart, keep: CartItem -> bool)
    requires Valid(items)
    ensures Valid(Filter(items, keep))
  {
    if items != [] {
      var tail := items[1..];
      assert Valid(tail) by {
        forall a, b | 0 <= a < b < |tail| ensures tail[a].product.id != tail[b].product.id {
          assert tail[a] == items[a + 1] && tail[b] == items[b + 1];
        }
      }
      FilterKeepsValid(tail, keep);
      var rest := Filter(tail, keep);
      if keep(items[0]) {
        var r := [items[0]] + rest;
        forall b | 0 < b < |r| ensures r[0].product.id != r[b].product.id {
          assert r[b] in tail;
          var k :| 0 <= k < |tail| && tail[k] == r[b];
          assert tail[k] == items[k + 1];
        }
        assert forall b | 0 < b < |r| :: r[b] == rest[b - 1];
      }
    }
  }

  /** Removing keeps the invariant. */
  lemma RemoveKeepsValid(items: Cart, id: string)
    requires Valid(items)
    ensures Valid(RemoveFromCart(items, id))
  {
    FilterKeepsValid(items, Other(id));
  }

  // ---------------------------------------------------------------------------
  // Updating the quantity
  // ---------------------------------------------------------------------------

  /** A quantity of zero or less yields exactly the cart that removing yields. */
  lemma UpdateNonPositive(items: Cart, id: string, quantity: int)
    requires quantity <= 0
    ensures UpdateQuantity(items, id, quantity) == RemoveFromCart(items, id)
  {
  }

  /**
    A positive quantity for a product at index j of a cart with unique ids
    sets that one entry's quantity; length, order and other entries stay.
  */
  lemma UpdatePositiveAt(items: Cart, id: string, quantity: int, j: nat)
    requires UniqueIds(items) && quantity > 0
    requires j < |items| && items[j].product.id == id
    ensures UpdateQuantity(items, id, quantity) == items[j := items[j].(quantity := quantity)]
  {
    var r := UpdateQuantity(items, id, quantity);
    var expected := items[j := items[j].(quantity := quantity)];
    forall i | 0 <= i < |items| ensures r[i] == expected[i] {
      assert i != j ==> items[i].product.id != id;
    }
  }

  /** Updating the quantity of a product not in the cart changes nothing. */
  lemma UpdateAbsent(items: Cart, id: string, quantity: int)
    requires !InCart(items, id)
    ensures UpdateQuantity(items, id, quantity) == items
  {
    if quantity <= 0 {
      RemoveAbsent(items, id);
    } else {
      MapUnmatched(items, id, SetTo(id, quantity));
    }
  }

  lemma UpdateKeepsValid(items: Cart, id: string, quantity: int)
    requires Valid(items)
    ensures Valid(UpdateQuantity(items, id, quantity))
  {
    if quantity <= 0 {
      RemoveKeepsValid(items, id);
    }
  }

  // ---------------------------------------------------------------------------
  // The total
  // ---------------------------------------------------------------------------

  lemma {:induction false} SumAppend(a: Cart, b: Cart)
    ensures Sum(a + b) == Sum(a) + Sum(b)
  {
    if a == [] {
      assert a + b == b;
    } else {
      assert (a + b)[1..] == a[1..] + b;
      SumAppend(a[1..], b);
    }
  }

  /** Replacing one entry changes the sum by the difference of the two lines. */
  lemma {:induction false} SumReplace(items: Cart, j: nat, x: CartItem)
    requires j < |items|
    ensures Sum(items[j := x]) == Sum(items) - LineTotal(items[j]) + LineTotal(x)
  {
    if j > 0 {
      assert items[j := x][1..] == items[1..][j - 1 := x];
      SumReplace(items[1..], j - 1, x);
    }
  }

  /** The total does not depend on the order of the entries. */
  lemma {:induction false} SumPermutation(a: Cart, b: Cart)
    requires multiset(a) == multiset(b)
    ensures Sum(a) == Sum(b)
  {
    if a != [] {
      assert a[0] in multiset(b);
      var j :| 0 <= j < |b| && b[j] == a[0];
      var rest := b[..j] + b[j + 1..];
      assert b == b[..j] + [b[j]] + b[j + 1..];
      assert a == [a[0]] + a[1..];
      assert multiset(a) == multiset([a[0]]) + multiset(a[1..]);
      assert multiset(b) == multiset(b[..j]) + multiset([b[j]]) + multiset(b[j + 1..]);
      assert multiset(rest) == multiset(b[..j]) + multiset(b[j + 1..]);
      forall x ensures multiset(a[1..])[x] == multiset(rest)[x] {
        assert multiset(a)[x] == multiset([a[0]])[x] + multiset(a[1..])[x];
        assert multiset(b)[x] == multiset(b[..j])[x] + multiset([b[j]])[x] + multiset(b[j + 1..])[x];
        assert multiset(rest)[x] == multiset(b[..j])[x] + multiset(b[j + 1..])[x];
      }
      assert multiset(a[1..]) == multiset(rest);
      SumPermutation(a[1..], rest);
      SumAppend(b[..j] + [b[j]], b[j + 1..]);
      SumAppend(b[..j], [b[j]]);
      SumAppend(b[..j], b[j + 1..]);
    } else {
      assert |b| == |multiset(b)|;
    }
  }

  /** Adding a product already in the cart raises the total by the price recorded in its entry. */
  lemma TotalAddExisting(items: Cart, product: Product, j: nat)
    requires UniqueIds(items)
    requires j < |items| && items[j].product.id == product.id
    ensures Total(AddToCart(items, product)) == Total(items) + items[j].product.price
  {
    AddExisting(items, product, j);
    SumReplace(items, j, items[j].(quantity := items[j].quantity + 1));
  }

  /** Adding a product not in the cart raises the total by its price. */
  lemma TotalAddAbsent(items: Cart, product: Product)
    requires !InCart(items, product.id)
    ensures Total(AddToCart(items, product)) == Total(items) + product.price
  {
    SumAppend(items, [CartItem(product, 1)]);
  }

  /** Removing the entry at index j lowers the total by that entry's line. */
  lemma TotalRemoveAt(items: Cart, id: string, j: nat)
    requires UniqueIds(items)
    requires j < |items| && items[j].product.id == id
    ensures Total(RemoveFromCart(items, id)) == Total(items) - LineTotal(items[j])
  {
    RemoveAt(items, id, j);
    assert items == items[..j] + [items[j]] + items[j + 1..];
    SumAppend(items[..j] + [items[j]], items[j + 1..]);
    SumAppend(items[..j], [items[j]]);
    SumAppend(items[..j], items[j + 1..]);
  }
}
