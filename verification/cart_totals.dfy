/** The cart summary (src/contexts/cart-context/useCartTotal.ts): two
    `reduce` folds over the line items and a record built from them. */
module CartTotals {
  import opened Wrappers
  import opened Models

  /** Which per-line amount a fold adds up. */
  datatype Measure = Quantity | Price

  /** The amount one line contributes: its quantity, or its price times
      its quantity (in cents). */
  function LineAmount(m: Measure, p: CartProduct): int {
    match m
    case Quantity => p.quantity
    case Price => p.price * p.quantity
  }

  /** Reference sum of a measure over the lines, by recursion from the front. */
  function Sum(m: Measure, ps: seq<CartProduct>): int {
    if ps == [] then 0 else LineAmount(m, ps[0]) + Sum(m, ps[1..])
  }

  /** `products.reduce((sum, p) => { sum += amount(p); return sum }, acc)`:
      a left fold that threads the running sum. It agrees with the
      reference sum shifted by the seed. */
  function Fold(m: Measure, ps: seq<CartProduct>, acc: int): (r: int)
    ensures r == acc + Sum(m, ps)
    decreases |ps|
  {
    if ps == [] then acc else Fold(m, ps[1..], acc + LineAmount(m, ps[0]))
  }

  /** updateCartTotal: the total handed to `setTotal`. The currency fields
      are constants and `installments` is never set. */
  function UpdateCartTotal(ps: seq<CartProduct>): (r: CartTotal)
    ensures r.productQuantity == Sum(Quantity, ps)
    ensures r.totalPrice == Sum(Price, ps)
    ensures ps == [] ==> r.productQuantity == 0 && r.totalPrice == 0
    ensures r.currencyId == "USD" && r.currencyFormat == "$"
    ensures r.installments == None
  {
    CartTotal(Fold(Quantity, ps, 0), None, Fold(Price, ps, 0), "USD", "$")
  }

  /** Sums distribute over concatenation. */
  lemma {:induction false} SumConcat(m: Measure, a: seq<CartProduct>, b: seq<CartProduct>)
    ensures Sum(m, a + b) == Sum(m, a) + Sum(m, b)
    decreases |a|
  {
    if a == [] {
      assert a + b == b;
    } else {
      assert (a + b)[1..] == a[1..] + b;
      SumConcat(m, a[1..], b);
    }
  }

  /** Appending one line raises the item count by its quantity and the
      price total by its price times its quantity. */
  lemma AppendTotals(ps: seq<CartProduct>, p: CartProduct)
    ensures UpdateCartTotal(ps + [p]).productQuantity
         == UpdateCartTotal(ps).productQuantity + p.quantity
    ensures UpdateCartTotal(ps + [p]).totalPrice
         == UpdateCartTotal(ps).totalPrice + p.price * p.quantity
  {
    SumConcat(Quantity, ps, [p]);
    SumConcat(Price, ps, [p]);
  }

  /** Taking the line at index i out of the sum leaves the rest. */
  lemma SumRemoveAt(m: Measure, s: seq<CartProduct>, i: nat)
    requires i < |s|
    ensures Sum(m, s) == LineAmount(m, s[i]) + Sum(m, s[..i] + s[i+1..])
  {
    assert s == s[..i] + ([s[i]] + s[i+1..]);
    SumConcat(m, s[..i], [s[i]] + s[i+1..]);
    SumConcat(m, s[..i], s[i+1..]);
  }

  /** Dropping the element at index i removes one copy of it from the multiset. */
  lemma MultisetRemoveAt<T>(s: seq<T>, i: nat)
    requires i < |s|
    ensures multiset(s[..i] + s[i+1..]) == multiset(s) - multiset{s[i]}
  {
    assert s == s[..i] + [s[i]] + s[i+1..];
  }

  /** In two arrangements of the same lines, the first line of one sits at
      some index of the other, and the remaining lines match up again. */
  lemma MatchFirst<T>(a: seq<T>, b: seq<T>) returns (i: nat)
    requires multiset(a) == multiset(b) && a != []
    ensures i < |b| && b[i] == a[0]
    ensures multiset(a[1..]) == multiset(b[..i] + b[i+1..])
  {
    assert a[0] in multiset(a);
    i :| 0 <= i < |b| && b[i] == a[0];
    MultisetRemoveAt(a, 0);
    MultisetRemoveAt(b, i);
    assert a[..0] + a[1..] == a[1..];
  }

  /** Both folds are commutative: reordering the lines does not change the sum. */
  lemma {:induction false} SumPermutation(m: Measure, a: seq<CartProduct>, b: seq<CartProduct>)
    requires multiset(a) == multiset(b)
    ensures Sum(m, a) == Sum(m, b)
    decreases |a|
  {
    if a == [] {
      assert |b| == |multiset(b)| == 0;
    } else {
      var i := MatchFirst(a, b);
      SumPermutation(m, a[1..], b[..i] + b[i+1..]);
      SumRemoveAt(m, b, i);
    }
  }

  /** The totals of the cart do not depend on the order of its lines. */
  lemma TotalsIgnoreOrder(a: seq<CartProduct>, b: seq<CartProduct>)
    requires multiset(a) == multiset(b)
    ensures UpdateCartTotal(a) == UpdateCartTotal(b)
  {
    SumPermutation(Quantity, a, b);
    SumPermutation(Price, a, b);
  }

  /** Lines with no negative price or quantity have non-negative sums. */
  lemma {:induction false} SumNonNegative(m: Measure, ps: seq<CartProduct>)
    requires forall i :: 0 <= i < |ps| ==> ps[i].quantity >= 0 && ps[i].price >= 0
    ensures Sum(m, ps) >= 0
    decreases |ps|
  {
    if ps != [] {
      SumNonNegative(m, ps[1..]);
      assert LineAmount(m, ps[0]) >= 0;
    }
  }

  /** With no negative prices or quantities, both totals are non-negative. */
  lemma TotalsNonNegative(ps: seq<CartProduct>)
    requires forall i :: 0 <= i < |ps| ==> ps[i].quantity >= 0 && ps[i].price >= 0
    ensures UpdateCartTotal(ps).productQuantity >= 0
    ensures UpdateCartTotal(ps).totalPrice >= 0
  {
    SumNonNegative(Quantity, ps);
    SumNonNegative(Price, ps);
  }
}
