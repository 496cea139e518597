/** The state updaters of the storefront's root component: the product
    catalogue (update, delete, the shop's category filter, the admin form's
    save) and the shopping cart (add, total, item count). Each is a pure
    function from the old array to the new one. */
module Catalogue {
  import opened Types

  // ---------------------------------------------------------------------------
  // Order-preserving filter over the catalogue (Array.prototype.filter)
  // ---------------------------------------------------------------------------

  /** The products of `ps` that `keep` accepts, in their original order. */
  function Where(ps: seq<Product>, keep: Product -> bool): (r: seq<Product>)
    ensures |r| <= |ps|
    ensures forall p :: p in r <==> p in ps && keep(p)
  {
    if ps == [] then []
    else (if keep(ps[0]) then [ps[0]] else []) + Where(ps[1..], keep)
  }

  /** Filtering a concatenation filters each part and keeps them in order. */
  lemma {:induction false} WhereAppend(a: seq<Product>, b: seq<Product>, keep: Product -> bool)
    ensures Where(a + b, keep) == Where(a, keep) + Where(b, keep)
  {
    if a == [] {
      assert a + b == b;
    } else {
      assert (a + b)[1..] == a[1..] + b;
      WhereAppend(a[1..], b, keep);
    }
  }

  /** A filter that accepts every element returns the input unchanged. */
  lemma {:induction false} WhereKeepsAll(ps: seq<Product>, keep: Product -> bool)
    requires forall p :: p in ps ==> keep(p)
    ensures Where(ps, keep) == ps
  {
    if ps != [] {
      assert forall p :: p in ps[1..] ==> p in ps;
      WhereKeepsAll(ps[1..], keep);
      assert [ps[0]] + ps[1..] == ps;
    }
  }

  /** A filter that rejects every element returns nothing. */
  lemma {:induction false} WhereKeepsNone(ps: seq<Product>, keep: Product -> bool)
    requires forall p :: p in ps ==> !keep(p)
    ensures Where(ps, keep) == []
  {
    if ps != [] {
      assert forall p :: p in ps[1..] ==> p in ps;
      WhereKeepsNone(ps[1..], keep);
    }
  }

  /** Two filters that agree on every element of `ps` select the same products. */
  lemma {:induction false} WhereAgree(ps: seq<Product>, f: Product -> bool, g: Product -> bool)
    requires forall p :: p in ps ==> f(p) == g(p)
    ensures Where(ps, f) == Where(ps, g)
  {
    if ps != [] {
      assert forall p :: p in ps[1..] ==> p in ps;
      WhereAgree(ps[1..], f, g);
    }
  }

  // ---------------------------------------------------------------------------
  // Catalogue updaters
  // ---------------------------------------------------------------------------

  /** `updateProduct`: every product whose id equals `u.id` becomes `u`. */
  function UpdateProduct(ps: seq<Product>, u: Product): (r: seq<Product>)
    ensures |r| == |ps|
    ensures forall i :: 0 <= i < |ps| ==> r[i].id == ps[i].id
    ensures forall i :: 0 <= i < |ps| && ps[i].id == u.id ==> r[i] == u
    ensures forall i :: 0 <= i < |ps| && ps[i].id != u.id ==> r[i] == ps[i]
  {
    if ps == [] then []
    else [if ps[0].id == u.id then u else ps[0]] + UpdateProduct(ps[1..], u)
  }

  /** Saving the same product twice is the same as saving it once. */
  lemma UpdateProductIdempotent(ps: seq<Product>, u: Product)
    ensures UpdateProduct(UpdateProduct(ps, u), u) == UpdateProduct(ps, u)
  {
  }

  /** `deleteProduct`: the catalogue without every product carrying `id`. */
  function DeleteProduct(ps: seq<Product>, id: string): (r: seq<Product>)
    ensures |r| <= |ps|
    ensures forall p :: p in r <==> p in ps && p.id != id
  {
    Where(ps, (p: Product) => p.id != id)
  }

  /** Deleting keeps the survivors in their original relative order. */
  lemma DeleteProductKeepsOrder(a: seq<Product>, b: seq<Product>, id: string)
    ensures DeleteProduct(a + b, id) == DeleteProduct(a, id) + DeleteProduct(b, id)
  {
    WhereAppend(a, b, (p: Product) => p.id != id);
  }

  /** Deleting an id the catalogue does not hold changes nothing; deleting twice
      is deleting once. */
  lemma DeleteProductAbsentOrRepeated(ps: seq<Product>, id: string)
    ensures (forall p :: p in ps ==> p.id != id) ==> DeleteProduct(ps, id) == ps
    ensures DeleteProduct(DeleteProduct(ps, id), id) == DeleteProduct(ps, id)
  {
    if forall p :: p in ps ==> p.id != id {
      WhereKeepsAll(ps, (p: Product) => p.id != id);
    }
    WhereKeepsAll(DeleteProduct(ps, id), (p: Product) => p.id != id);
  }

  /** Updating a product and then deleting any id gives the same catalogue as
      deleting first and updating afterwards. */
  lemma {:induction false} UpdateDeleteCommute(ps: seq<Product>, u: Product, id: string)
    ensures DeleteProduct(UpdateProduct(ps, u), id) ==
            if u.id == id then DeleteProduct(ps, id) else UpdateProduct(DeleteProduct(ps, id), u)
  {
    if ps != [] {
      var r := UpdateProduct(ps, u);
      assert r == [r[0]] + r[1..];
      assert ps == [ps[0]] + ps[1..];
      UpdateDeleteCommute(ps[1..], u, id);
    }
  }

  // ---------------------------------------------------------------------------
  // The shop view's category filter
  // ---------------------------------------------------------------------------

  /** The products the shop grid shows for the selected filter string. */
  function ShopView(ps: seq<Product>, filter: string): (r: seq<Product>)
    ensures forall p :: p in r <==> p in ps && (filter == "All" || CategoryName(p.category) == filter)
  {
    Where(ps, (p: Product) => filter == "All" || CategoryName(p.category) == filter)
  }

  /** "All" shows the whole catalogue in order; a category name shows exactly
      that category in order; any other string shows nothing. */
  lemma ShopViewCases(ps: seq<Product>, filter: string)
    ensures filter == "All" ==> ShopView(ps, filter) == ps
    ensures forall c: Category :: filter == CategoryName(c) ==>
              ShopView(ps, filter) == Where(ps, (p: Product) => p.category == c)
    ensures (filter != "All" && forall c: Category :: filter != CategoryName(c)) ==>
              ShopView(ps, filter) == []
  {
    var keep := (p: Product) => filter == "All" || CategoryName(p.category) == filter;
    if filter == "All" {
      WhereKeepsAll(ps, keep);
    }
    forall c: Category | filter == CategoryName(c)
      ensures ShopView(ps, filter) == Where(ps, (p: Product) => p.category == c)
    {
      forall p | p in ps ensures keep(p) == (p.category == c) {
        CategoryNameInjective(p.category, c);
      }
      WhereAgree(ps, keep, (p: Product) => p.category == c);
    }
    if filter != "All" && forall c: Category :: filter != CategoryName(c) {
      WhereKeepsNone(ps, keep);
    }
  }

  // ---------------------------------------------------------------------------
  // The admin form
  // ---------------------------------------------------------------------------

  /** One change typed into the edit form. */
  datatype FormEdit =
    | EditName(name: string)
    | EditPrice(price: int)
    | EditImage(image: string)
    | EditDescription(description: string)

  /** The form after one input's change handler; `None` is the empty form `{}`. */
  function ApplyEdit(form: Option<Product>, e: FormEdit): (r: Option<Product>)
    ensures r.Some? == form.Some?
    ensures r.Some? ==> r.value.id == form.value.id && r.value.category == form.value.category
  {
    match form
    case None => None
    case Some(p) =>
      match e
      case EditName(n) => Some(p.(name := n))
      case EditPrice(c) => Some(p.(price := c))
      case EditImage(s) => Some(p.(image := s))
      case EditDescription(d) => Some(p.(description := d))
  }

  /** The form after a sequence of edits, oldest first. */
  function ApplyEdits(form: Option<Product>, es: seq<FormEdit>): Option<Product>
    decreases |es|
  {
    if es == [] then form else ApplyEdits(ApplyEdit(form, es[0]), es[1..])
  }

  /** `handleSave`'s test: the form holds a product whose id is a non-empty
      string (the empty string is falsy). */
  predicate Commits(form: Option<Product>)
  {
    form.Some? && form.value.id != ""
  }

  /** The catalogue after `handleSave`. */
  function Save(form: Option<Product>, ps: seq<Product>): seq<Product>
  {
    if Commits(form) then UpdateProduct(ps, form.value) else ps
  }

  /** No sequence of edits changes which product the form is editing. */
  lemma {:induction false} EditsKeepId(form: Option<Product>, es: seq<FormEdit>)
    decreases |es|
    ensures ApplyEdits(form, es).Some? == form.Some?
    ensures form.Some? ==> ApplyEdits(form, es).value.id == form.value.id
  {
    if es != [] {
      EditsKeepId(ApplyEdit(form, es[0]), es[1..]);
    }
  }

  /** After `startEdit(p)` and any edits, saving replaces exactly the products
      whose id is `p.id` and leaves every other product alone; it changes
      nothing when `p.id` is empty, and on the empty form. */
  lemma SaveAfterEdits(p: Product, es: seq<FormEdit>, ps: seq<Product>)
    ensures var f, r := ApplyEdits(Some(p), es), Save(ApplyEdits(Some(p), es), ps);
      f.Some? && f.value.id == p.id && |r| == |ps| &&
      (p.id == "" ==> r == ps) &&
      (forall i :: 0 <= i < |ps| && ps[i].id != p.id ==> r[i] == ps[i]) &&
      (forall i :: 0 <= i < |ps| && ps[i].id == p.id && p.id != "" ==> r[i] == f.value)
    ensures Save(None, ps) == ps
  {
    EditsKeepId(Some(p), es);
  }

  // ---------------------------------------------------------------------------
  // The cart
  // ---------------------------------------------------------------------------

  /** `find`: the index of the first line for product `id`, if there is one. */
  function FindLine(cart: seq<CartItem>, id: string): (r: Option<nat>)
    ensures r.Some? ==> r.value < |cart| && cart[r.value].product.id == id
    ensures r.Some? ==> forall j :: 0 <= j < r.value ==> cart[j].product.id != id
    ensures r.None? <==> forall j :: 0 <= j < |cart| ==> cart[j].product.id != id
  {
    if cart == [] then None
    else if cart[0].product.id == id then Some(0)
    else match FindLine(cart[1..], id)
      case None => None
      case Some(k) => Some(k + 1)
  }

  /** The `map` branch of `addToCart`: every line for `id` gets one more unit. */
  function IncrementLines(cart: seq<CartItem>, id: string): (r: seq<CartItem>)
    ensures |r| == |cart|
    ensures forall i :: 0 <= i < |cart| && cart[i].product.id == id ==>
              r[i] == cart[i].(quantity := cart[i].quantity + 1)
    ensures forall i :: 0 <= i < |cart| && cart[i].product.id != id ==> r[i] == cart[i]
  {
    if cart == [] then []
    else
      [if cart[0].product.id == id then cart[0].(quantity := cart[0].quantity + 1) else cart[0]]
      + IncrementLines(cart[1..], id)
  }

  /** `addToCart`: one more unit of an existing line, or a new line of one at the end. */
  function AddToCart(cart: seq<CartItem>, p: Product): seq<CartItem>
  {
    if FindLine(cart, p.id).Some? then IncrementLines(cart, p.id)
    else cart + [CartItem(p, 1)]
  }

  /** No two cart lines are for the same product id. */
  predicate DistinctIds(cart: seq<CartItem>)
  {
    forall i, j :: 0 <= i < j < |cart| ==> cart[i].product.id != cart[j].product.id
  }

  /** The cart invariant: distinct ids and a positive quantity on every line. */
  predicate WellFormedCart(cart: seq<CartItem>)
  {
    DistinctIds(cart) && forall i :: 0 <= i < |cart| ==> cart[i].quantity >= 1
  }

  /** A product not yet in the cart is appended as a line of quantity 1, and the
      earlier lines are unchanged. */
  lemma AddToCartNewLine(cart: seq<CartItem>, p: Product)
    requires forall i :: 0 <= i < |cart| ==> cart[i].product.id != p.id
    ensures var r := AddToCart(cart, p);
      |r| == |cart| + 1 && r[..|cart|] == cart && r[|cart|] == CartItem(p, 1)
  {
  }

  /** A product already in the cart at line `k` keeps the length, raises that
      line's quantity by exactly one (its recorded product unchanged) and leaves
      every other line alone. */
  lemma AddToCartExistingLine(cart: seq<CartItem>, p: Product, k: nat)
    requires DistinctIds(cart)
    requires k < |cart| && cart[k].product.id == p.id
    ensures var r := AddToCart(cart, p);
      |r| == |cart| &&
      r[k].product == cart[k].product && r[k].quantity == cart[k].quantity + 1 &&
      forall j :: 0 <= j < |cart| && j != k ==> r[j] == cart[j]
  {
  }

  /** `addToCart` keeps the cart invariant. */
  lemma AddToCartWellFormed(cart: seq<CartItem>, p: Product)
    requires WellFormedCart(cart)
    ensures WellFormedCart(AddToCart(cart, p))
  {
  }

  // ---------------------------------------------------------------------------
  // Sums over the cart (Array.prototype.reduce from 0, left to right)
  // ---------------------------------------------------------------------------

  function SumBy(cart: seq<CartItem>, f: CartItem -> int): int
  {
    if cart == [] then 0 else SumBy(cart[..|cart| - 1], f) + f(cart[|cart| - 1])
  }

  function LineTotal(item: CartItem): int
  {
    item.product.price * item.quantity
  }

  function LineCount(item: CartItem): int
  {
    item.quantity
  }

  /** `total`: the sum of price times quantity over the cart. */
  function Total(cart: seq<CartItem>): int
  {
    SumBy(cart, LineTotal)
  }

  /** `cartCount`: the sum of quantities over the cart. */
  function CartCount(cart: seq<CartItem>): int
  {
    SumBy(cart, LineCount)
  }

  lemma SumByAppend(a: seq<CartItem>, x: CartItem, f: CartItem -> int)
    ensures SumBy(a + [x], f) == SumBy(a, f) + f(x)
  {
    assert (a + [x])[..|a|] == a;
  }

  /** Changing one line changes a sum by exactly that line's difference. */
  lemma {:induction false} SumByChangeOne(a: seq<CartItem>, b: seq<CartItem>, k: nat, f: CartItem -> int)
    requires |a| == |b| && k < |a|
    requires forall j :: 0 <= j < |a| && j != k ==> a[j] == b[j]
    ensures SumBy(b, f) == SumBy(a, f) - f(a[k]) + f(b[k])
  {
    var n := |a| - 1;
    if k == n {
      assert a[..n] == b[..n];
    } else {
      SumByChangeOne(a[..n], b[..n], k, f);
    }
  }

  /** Every `addToCart` raises the item count by exactly one. */
  lemma CartCountAddToCart(cart: seq<CartItem>, p: Product)
    requires DistinctIds(cart)
    ensures CartCount(AddToCart(cart, p)) == CartCount(cart) + 1
  {
    var r := AddToCart(cart, p);
    match FindLine(cart, p.id)
    case None => SumByAppend(cart, CartItem(p, 1), LineCount);
    case Some(k) => SumByIncrementLines(cart, p.id, k, LineCount, (x: CartItem) => 1);
  }

  /** `addToCart` raises the total by the unit price recorded on the line it
      touches: `p.price` for a new line, the line's own snapshot price for an
      existing one. */
  lemma TotalAddToCart(cart: seq<CartItem>, p: Product)
    requires DistinctIds(cart)
    ensures FindLine(cart, p.id).None? ==> Total(AddToCart(cart, p)) == Total(cart) + p.price
    ensures FindLine(cart, p.id).Some? ==>
      Total(AddToCart(cart, p)) == Total(cart) + cart[FindLine(cart, p.id).value].product.price
  {
    var found := FindLine(cart, p.id);
    if found.None? {
      TotalNewLine(cart, p);
    } else {
      TotalExistingLine(cart, p, found.value);
    }
  }

  lemma TotalNewLine(cart: seq<CartItem>, p: Product)
    ensures Total(cart + [CartItem(p, 1)]) == Total(cart) + p.price
  {
    SumByAppend(cart, CartItem(p, 1), LineTotal);
  }

  lemma TotalExistingLine(cart: seq<CartItem>, p: Product, k: nat)
    requires DistinctIds(cart)
    requires k < |cart| && cart[k].product.id == p.id
    ensures Total(IncrementLines(cart, p.id)) == Total(cart) + cart[k].product.price
  {
    LineTotalIncrement();
    SumByIncrementLines(cart, p.id, k, LineTotal, UnitPrice);
  }

  /** In a cart with distinct ids, incrementing the lines for `id` changes a sum
      by exactly what one more unit adds to the term of the line at `k`. */
  lemma SumByIncrementLines(cart: seq<CartItem>, id: string, k: nat, f: CartItem -> int, step: CartItem -> int)
    requires DistinctIds(cart)
    requires k < |cart| && cart[k].product.id == id
    requires forall x: CartItem :: f(x.(quantity := x.quantity + 1)) == f(x) + step(x)
    ensures SumBy(IncrementLines(cart, id), f) == SumBy(cart, f) + step(cart[k])
  {
    SumByChangeOne(cart, IncrementLines(cart, id), k, f);
  }

  function UnitPrice(item: CartItem): int
  {
    item.product.price
  }

  /** One more unit on a line adds its unit price to the line's total. */
  lemma LineTotalIncrement()
    ensures forall x: CartItem :: LineTotal(x.(quantity := x.quantity + 1)) == LineTotal(x) + UnitPrice(x)
  {
    forall x: CartItem
      ensures LineTotal(x.(quantity := x.quantity + 1)) == LineTotal(x) + UnitPrice(x)
    {
      var c, q := x.product.price, x.quantity;
      assert c * (q + 1) == c * q + c;
    }
  }

  /** When the cart's lines for `p.id` carry `p`'s current price (no price edit
      since the line was created), `addToCart(p)` raises the total by exactly
      `p.price`. */
  lemma TotalAddToCartAtCataloguePrice(cart: seq<CartItem>, p: Product)
    requires DistinctIds(cart)
    requires forall i :: 0 <= i < |cart| && cart[i].product.id == p.id ==> cart[i].product.price == p.price
    ensures Total(AddToCart(cart, p)) == Total(cart) + p.price
  {
    TotalAddToCart(cart, p);
  }
}
