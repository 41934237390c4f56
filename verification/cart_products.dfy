/** Cart line-item operations (src/contexts/cart-context/useCartProducts.ts).
    Every operation builds a fresh list with map / filter / some / spread,
    stores it, and recomputes the totals from that same list; nothing is
    updated in place, so the operations are functions on a CartState. */
module CartProducts {
  import opened Wrappers
  import opened Models
  import opened CartTotals
  import opened Browser

  /** What the cart context holds: the line items and the last total. */
  datatype CartState = CartState(products: seq<CartProduct>, total: CartTotal)

  /** The stored total is the one computed from the stored lines. */
  predicate TotalsCurrent(st: CartState) {
    st.total == UpdateCartTotal(st.products)
  }

  /** `setProducts(list); updateCartTotal(list)`: store a list and the
      totals computed from it. */
  function Commit(ps: seq<CartProduct>): (st: CartState)
    ensures st.products == ps && TotalsCurrent(st)
  {
    CartState(ps, UpdateCartTotal(ps))
  }

  /** No two lines share a product id. */
  predicate UniqueIds(ps: seq<CartProduct>) {
    forall i, j :: 0 <= i < j < |ps| ==> ps[i].productId != ps[j].productId
  }

  /** Number of lines carrying the given product id. */
  function Count(ps: seq<CartProduct>, id: int): nat {
    if ps == [] then 0 else (if ps[0].productId == id then 1 else 0) + Count(ps[1..], id)
  }

  /** Sum of a measure over the lines carrying the given product id. */
  function SumWhere(m: Measure, ps: seq<CartProduct>, id: int): int {
    if ps == [] then 0
    else (if ps[0].productId == id then LineAmount(m, ps[0]) else 0) + SumWhere(m, ps[1..], id)
  }

  /** updateQuantitySafely: a line whose id matches the target gains
      `delta`; any other line comes back unchanged. Only the quantity can
      change. */
  function UpdateQuantitySafely(current: CartProduct, target: CartProduct, delta: int): (r: CartProduct)
    ensures r.(quantity := current.quantity) == current
    ensures current.productId == target.productId ==> r.quantity == current.quantity + delta
    ensures current.productId != target.productId ==> r == current
  {
    if current.productId == target.productId then current.(quantity := current.quantity + delta)
    else current
  }

  /** `products.map(p => updateQuantitySafely(p, target, delta))`: same
      length and order; matching lines gain `delta`, the others are kept. */
  function MapUpdate(ps: seq<CartProduct>, target: CartProduct, delta: int): (r: seq<CartProduct>)
    ensures |r| == |ps|
    ensures forall i :: 0 <= i < |ps| ==>
      r[i].(quantity := ps[i].quantity) == ps[i] &&
      r[i].quantity == ps[i].quantity + (if ps[i].productId == target.productId then delta else 0)
  {
    if ps == [] then [] else [UpdateQuantitySafely(ps[0], target, delta)] + MapUpdate(ps[1..], target, delta)
  }

  /** `products.some(p => p.product_id === id)`. */
  predicate IsInCart(ps: seq<CartProduct>, id: int) {
    exists i :: 0 <= i < |ps| && ps[i].productId == id
  }

  /** JavaScript's `quantity || 1` on a number: zero falls back to one. */
  function DefaultQuantity(q: int): (r: int)
    ensures r != 0
    ensures q == 0 ==> r == 1
    ensures q != 0 ==> r == q
  {
    if q == 0 then 1 else q
  }

  /** The local fallback of addProduct: merge into the existing lines with
      that id, or else append the new line as given. */
  function AddLocally(ps: seq<CartProduct>, np: CartProduct): (r: seq<CartProduct>)
    ensures IsInCart(ps, np.productId) ==>
      |r| == |ps| &&
      forall i :: 0 <= i < |ps| ==>
        r[i].(quantity := ps[i].quantity) == ps[i] &&
        r[i].quantity == ps[i].quantity + (if ps[i].productId == np.productId then DefaultQuantity(np.quantity) else 0)
    ensures !IsInCart(ps, np.productId) ==> r == ps + [np]
  {
    if IsInCart(ps, np.productId) then MapUpdate(ps, np, DefaultQuantity(np.quantity))
    else ps + [np]
  }

  /** `products.filter(p => p.product_id !== id)`: no line with that id is
      left, every other line is kept, in its original relative order, and
      the list is unchanged when the id is absent. */
  function RemoveById(ps: seq<CartProduct>, id: int): (r: seq<CartProduct>)
    ensures |r| == |ps| - Count(ps, id)
    ensures forall i :: 0 <= i < |r| ==> r[i].productId != id
    ensures forall p :: p in r ==> p in ps
    ensures forall i :: 0 <= i < |ps| && ps[i].productId != id ==> ps[i] in r
    ensures IsSubsequence(r, ps)
    ensures Count(ps, id) == 0 ==> r == ps
  {
    if ps == [] then []
    else if ps[0].productId == id then RemoveById(ps[1..], id)
    else [ps[0]] + RemoveById(ps[1..], id)
  }

  /** r can be obtained from s by deleting elements: the order of what is
      kept is the order in s. */
  ghost predicate IsSubsequence<T>(r: seq<T>, s: seq<T>)
    decreases |s|
  {
    if r == [] then true
    else if s == [] then false
    else if r[0] == s[0] then IsSubsequence(r[1..], s[1..])
    else IsSubsequence(r, s[1..])
  }

  /** The request body addProduct posts to the cart endpoint. */
  datatype CartPayload = CartPayload(
    productId: int, productName: string, quantity: int, productImage: string, price: int)

  /** The payload: quantity defaults to one when zero; `image || ''` and
      `price || 0` are the identity on strings and integer cents. */
  function Payload(np: CartProduct): (r: CartPayload)
    ensures r.productId == np.productId && r.productName == np.name
    ensures r.productImage == np.image && r.price == np.price
    ensures r.quantity == DefaultQuantity(np.quantity)
  {
    CartPayload(np.productId, np.name, DefaultQuantity(np.quantity), np.image, np.price)
  }

  /** The observable effect of one addProduct call: the POST it makes (if
      any), whether it reloads the cart from the server, and the local state
      afterwards. */
  datatype AddEffect = AddEffect(request: Option<CartPayload>, refetch: bool, state: CartState)

  /** addProduct. Without a token nothing happens. Otherwise the line is
      posted. On success the cart is reloaded with fetchCartItems, which
      stores the server's list (`refetched`, None when that request fails and
      nothing is stored) but does not recompute the totals. On failure the
      local fallback is stored together with its totals. */
  function AddProduct(st: CartState, tokenId: Option<string>, postSucceeded: bool,
                      refetched: Option<seq<CartProduct>>, np: CartProduct): (r: AddEffect)
    ensures !Truthy(tokenId) ==> r.request == None && !r.refetch && r.state == st
    ensures Truthy(tokenId) ==> r.request == Some(Payload(np))
    ensures Truthy(tokenId) && postSucceeded ==>
      r.refetch && r.state.total == st.total &&
      r.state.products == refetched.GetOr(st.products)
    ensures Truthy(tokenId) && !postSucceeded ==>
      !r.refetch && r.state.products == AddLocally(st.products, np) && TotalsCurrent(r.state)
  {
    if !Truthy(tokenId) then AddEffect(None, false, st)
    else if postSucceeded then
      AddEffect(Some(Payload(np)), true, CartState(refetched.GetOr(st.products), st.total))
    else AddEffect(Some(Payload(np)), false, Commit(AddLocally(st.products, np)))
  }

  /** After a successful add the reloaded lines are stored with the totals of
      the old lines: a cart of one line of 2 units at 500 cents reloaded as 3
      units keeps showing 2 items and 1000 cents. */
  lemma RefetchLeavesTotalsStale()
    ensures
      var line := CartProduct(7, "Tee", "", 500, "", "", 2);
      var st := Commit([line]);
      var r := AddProduct(st, Some("token"), true, Some([line.(quantity := 3)]), line).state;
      TotalsCurrent(st) && !TotalsCurrent(r) &&
      r.total.productQuantity == 2 && Sum(Quantity, r.products) == 3
  {
    var line := CartProduct(7, "Tee", "", 500, "", "", 2);
    assert Sum(Quantity, [line]) == 2;
    assert Sum(Quantity, [line.(quantity := 3)]) == 3;
  }

  /** removeProduct: drop every line with the target's id, store the list
      and its totals. */
  function RemoveProduct(st: CartState, target: CartProduct): (r: CartState)
    ensures r.products == RemoveById(st.products, target.productId)
    ensures TotalsCurrent(r)
  {
    Commit(RemoveById(st.products, target.productId))
  }

  /** increaseProductQuantity: matching lines gain one. */
  function IncreaseProductQuantity(st: CartState, target: CartProduct): (r: CartState)
    ensures r.products == MapUpdate(st.products, target, 1)
    ensures TotalsCurrent(r)
  {
    Commit(MapUpdate(st.products, target, 1))
  }

  /** decreaseProductQuantity: matching lines lose one; nothing clamps. */
  function DecreaseProductQuantity(st: CartState, target: CartProduct): (r: CartState)
    ensures r.products == MapUpdate(st.products, target, -1)
    ensures TotalsCurrent(r)
  {
    Commit(MapUpdate(st.products, target, -1))
  }

  /** The "-" button of a cart line is disabled at quantity one
      (src/components/Cart/CartProducts/CartProduct/CartProduct.tsx). */
  predicate DecreaseEnabled(p: CartProduct) {
    p.quantity != 1
  }

  /** Every line holds at least one unit. */
  predicate AllPositive(ps: seq<CartProduct>) {
    forall i :: 0 <= i < |ps| ==> ps[i].quantity >= 1
  }

  /** `some` finds the id exactly when at least one line carries it. */
  lemma {:induction false} InCartIffCounted(ps: seq<CartProduct>, id: int)
    ensures IsInCart(ps, id) <==> Count(ps, id) > 0
  {
    if ps != [] {
      InCartIffCounted(ps[1..], id);
      if IsInCart(ps[1..], id) {
        var i :| 0 <= i < |ps[1..]| && ps[1..][i].productId == id;
        assert ps[i + 1].productId == id;
      }
      if IsInCart(ps, id) && ps[0].productId != id {
        var i :| 0 <= i < |ps| && ps[i].productId == id;
        assert ps[1..][i - 1].productId == id;
      }
    }
  }

  /** With unique ids, a product in the cart occupies exactly one line. */
  lemma {:induction false} UniqueCount(ps: seq<CartProduct>, k: nat)
    requires UniqueIds(ps) && k < |ps|
    ensures Count(ps, ps[k].productId) == 1
  {
    if k == 0 {
      NotInCartCount(ps[1..], ps[0].productId);
    } else {
      UniqueCount(ps[1..], k - 1);
    }
  }

  /** A product id that no line carries has count zero. */
  lemma {:induction false} NotInCartCount(ps: seq<CartProduct>, id: int)
    requires forall i :: 0 <= i < |ps| ==> ps[i].productId != id
    ensures Count(ps, id) == 0
  {
    if ps != [] {
      NotInCartCount(ps[1..], id);
    }
  }

  /** Adding zero to the matching lines changes nothing. */
  lemma MapUpdateZero(ps: seq<CartProduct>, target: CartProduct)
    ensures MapUpdate(ps, target, 0) == ps
  {
  }

  /** Two quantity updates for the same product compose into one. */
  lemma MapUpdateCompose(ps: seq<CartProduct>, target: CartProduct, a: int, b: int)
    ensures MapUpdate(MapUpdate(ps, target, a), target, b) == MapUpdate(ps, target, a + b)
  {
    var r1 := MapUpdate(ps, target, a);
    var r2 := MapUpdate(r1, target, b);
    var r := MapUpdate(ps, target, a + b);
    forall i | 0 <= i < |ps| ensures r2[i] == r[i] {
      assert r1[i].(quantity := ps[i].quantity) == ps[i];
      assert r2[i].(quantity := r1[i].quantity) == r1[i];
      assert r[i].(quantity := ps[i].quantity) == ps[i];
    }
  }

  /** Decreasing after increasing (or the other way round) restores the lines. */
  lemma IncreaseDecreaseInverse(ps: seq<CartProduct>, target: CartProduct)
    ensures MapUpdate(MapUpdate(ps, target, 1), target, -1) == ps
    ensures MapUpdate(MapUpdate(ps, target, -1), target, 1) == ps
  {
    MapUpdateCompose(ps, target, 1, -1);
    MapUpdateCompose(ps, target, -1, 1);
    MapUpdateZero(ps, target);
  }

  /** Quantity updates never change which ids the lines carry. */
  lemma MapUpdateKeepsUnique(ps: seq<CartProduct>, target: CartProduct, delta: int)
    requires UniqueIds(ps)
    ensures UniqueIds(MapUpdate(ps, target, delta))
  {
  }

  /** The local add keeps product ids unique: it merges a known id and
      appends only an unknown one. */
  lemma AddLocallyKeepsUnique(ps: seq<CartProduct>, np: CartProduct)
    requires UniqueIds(ps)
    ensures UniqueIds(AddLocally(ps, np))
  {
  }

  /** Removing lines keeps product ids unique. */
  lemma {:induction false} RemoveKeepsUnique(ps: seq<CartProduct>, id: int)
    requires UniqueIds(ps)
    ensures UniqueIds(RemoveById(ps, id))
  {
    if ps != [] {
      RemoveKeepsUnique(ps[1..], id);
      var rest := RemoveById(ps[1..], id);
      if ps[0].productId != id {
        var r := [ps[0]] + rest;
        forall i, j | 0 <= i < j < |r| ensures r[i].productId != r[j].productId {
          if i == 0 {
            assert r[j] in ps[1..];
            var k :| 0 <= k < |ps[1..]| && ps[1..][k] == r[j];
            assert ps[k + 1] == r[j];
          } else {
            assert r[i] == rest[i - 1] && r[j] == rest[j - 1];
          }
        }
      }
    }
  }

  /** Removing a product takes exactly its lines out of both totals. */
  lemma {:induction false} RemoveTotals(m: Measure, ps: seq<CartProduct>, id: int)
    ensures Sum(m, RemoveById(ps, id)) == Sum(m, ps) - SumWhere(m, ps, id)
  {
    if ps != [] {
      RemoveTotals(m, ps[1..], id);
      if ps[0].productId != id {
        assert ([ps[0]] + RemoveById(ps[1..], id))[1..] == RemoveById(ps[1..], id);
      }
    }
  }

  /** Changing every matching line by `delta` moves the item count by
      `delta` per matching line. */
  lemma {:induction false} UpdateQuantityTotal(ps: seq<CartProduct>, target: CartProduct, delta: int)
    ensures Sum(Quantity, MapUpdate(ps, target, delta))
         == Sum(Quantity, ps) + delta * Count(ps, target.productId)
  {
    if ps != [] {
      UpdateQuantityTotal(ps[1..], target, delta);
      var c := Count(ps[1..], target.productId);
      if ps[0].productId == target.productId {
        assert delta * (1 + c) == delta + delta * c;
      }
    }
  }

  /** Changing every matching line by `delta` moves the price total by
      `delta` times the price of each matching line. */
  lemma {:induction false} UpdatePriceTotal(ps: seq<CartProduct>, target: CartProduct, delta: int)
    ensures Sum(Price, MapUpdate(ps, target, delta))
         == Sum(Price, ps) + delta * PriceWhere(ps, target.productId)
  {
    if ps != [] {
      UpdatePriceTotal(ps[1..], target, delta);
      var w := PriceWhere(ps[1..], target.productId);
      var p := ps[0];
      if p.productId == target.productId {
        assert p.price * (p.quantity + delta) == p.price * p.quantity + delta * p.price;
        assert delta * (p.price + w) == delta * p.price + delta * w;
      }
    }
  }

  /** Sum of the unit prices of the lines carrying the given id. */
  function PriceWhere(ps: seq<CartProduct>, id: int): int {
    if ps == [] then 0
    else (if ps[0].productId == id then ps[0].price else 0) + PriceWhere(ps[1..], id)
  }

  /** With unique ids, the price of a product's lines is the price of its one line. */
  lemma {:induction false} UniquePriceWhere(ps: seq<CartProduct>, k: nat)
    requires UniqueIds(ps) && k < |ps|
    ensures PriceWhere(ps, ps[k].productId) == ps[k].price
  {
    if k == 0 {
      NoPriceWhereAbsent(ps[1..], ps[0].productId);
    } else {
      UniquePriceWhere(ps[1..], k - 1);
    }
  }

  /** A product id that no line carries contributes no price. */
  lemma {:induction false} NoPriceWhereAbsent(ps: seq<CartProduct>, id: int)
    requires forall i :: 0 <= i < |ps| ==> ps[i].productId != id
    ensures PriceWhere(ps, id) == 0
  {
    if ps != [] {
      NoPriceWhereAbsent(ps[1..], id);
    }
  }

  /** Pressing "+" or "-" on a line of a cart with unique ids moves the item
      count by one and the price total by that line's price, and the stored
      totals follow. */
  lemma StepTotals(st: CartState, k: nat)
    requires UniqueIds(st.products) && k < |st.products|
    ensures IncreaseProductQuantity(st, st.products[k]).total.productQuantity
         == Sum(Quantity, st.products) + 1
    ensures IncreaseProductQuantity(st, st.products[k]).total.totalPrice
         == Sum(Price, st.products) + st.products[k].price
    ensures DecreaseProductQuantity(st, st.products[k]).total.productQuantity
         == Sum(Quantity, st.products) - 1
    ensures DecreaseProductQuantity(st, st.products[k]).total.totalPrice
         == Sum(Price, st.products) - st.products[k].price
  {
    var ps, t := st.products, st.products[k];
    UniqueCount(ps, k);
    UniquePriceWhere(ps, k);
    UpdateQuantityTotal(ps, t, 1);
    UpdateQuantityTotal(ps, t, -1);
    UpdatePriceTotal(ps, t, 1);
    UpdatePriceTotal(ps, t, -1);
  }

  /** Decrease does not clamp. In a cart with unique ids and at least one
      unit per line, every line keeps at least one unit after "-" on line k
      exactly when line k held two or more; the disabled-at-one guard of
      the "-" button therefore keeps every quantity at least one. */
  lemma DecreaseKeepsPositive(ps: seq<CartProduct>, k: nat)
    requires UniqueIds(ps) && AllPositive(ps) && k < |ps|
    ensures AllPositive(MapUpdate(ps, ps[k], -1)) <==> ps[k].quantity >= 2
    ensures DecreaseEnabled(ps[k]) ==> AllPositive(MapUpdate(ps, ps[k], -1))
  {
  }

  /** The local add moves the totals by the added quantity: per matching
      line (defaulted to one, at that line's price) when merging, by the
      line's own quantity and price when appending. */
  lemma AddLocallyTotals(ps: seq<CartProduct>, np: CartProduct)
    ensures IsInCart(ps, np.productId) ==>
      Sum(Quantity, AddLocally(ps, np))
        == Sum(Quantity, ps) + DefaultQuantity(np.quantity) * Count(ps, np.productId) &&
      Sum(Price, AddLocally(ps, np))
        == Sum(Price, ps) + DefaultQuantity(np.quantity) * PriceWhere(ps, np.productId)
    ensures !IsInCart(ps, np.productId) ==>
      Sum(Quantity, AddLocally(ps, np)) == Sum(Quantity, ps) + np.quantity &&
      Sum(Price, AddLocally(ps, np)) == Sum(Price, ps) + np.price * np.quantity
  {
    if IsInCart(ps, np.productId) {
      UpdateQuantityTotal(ps, np, DefaultQuantity(np.quantity));
      UpdatePriceTotal(ps, np, DefaultQuantity(np.quantity));
    } else {
      AppendTotals(ps, np);
    }
  }

  /** Every local mutator leaves the stored totals in step with the stored
      lines and, starting from unique ids, keeps them unique. For addProduct
      this holds when no reload happens (no token, or the post failed); after
      a reload it does not (RefetchLeavesTotalsStale). */
  lemma MutatorsKeepInvariant(st: CartState, target: CartProduct, tokenId: Option<string>, postSucceeded: bool,
                              refetched: Option<seq<CartProduct>>)
    requires UniqueIds(st.products) && TotalsCurrent(st)
    ensures !Truthy(tokenId) || !postSucceeded ==>
      var r := AddProduct(st, tokenId, postSucceeded, refetched, target).state;
      UniqueIds(r.products) && TotalsCurrent(r)
    ensures var r := RemoveProduct(st, target); UniqueIds(r.products) && TotalsCurrent(r)
    ensures var r := IncreaseProductQuantity(st, target); UniqueIds(r.products) && TotalsCurrent(r)
    ensures var r := DecreaseProductQuantity(st, target); UniqueIds(r.products) && TotalsCurrent(r)
  {
    AddLocallyKeepsUnique(st.products, target);
    RemoveKeepsUnique(st.products, target.productId);
    MapUpdateKeepsUnique(st.products, target, 1);
    MapUpdateKeepsUnique(st.products, target, -1);
  }
}
