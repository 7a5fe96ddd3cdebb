/** A model of the shopping-cart state kept by the cart hook of the
    RocketShoes storefront: an ordered list of entries keyed by product id,
    three operations that change it (add one unit, remove, set the amount),
    and the stored copy that mirrors it for the next page load.

    The answers of the stock and product services are parameters
    (`Fetch<T>`), the error notifications are a returned `Status`, and the
    stored copy is the field `persisted`. */
module UseCart {

  datatype Option<T> = None | Some(value: T)

  /** The answer of one request to the remote API: the request resolved
      with a value, or it was rejected (network error, bad response). */
  datatype Fetch<T> = Fetched(value: T) | Failed

  /** One line of the cart. `product` stands for the display fields the
      product service returns; the model never inspects them. */
  datatype Entry<P> = Entry(id: int, amount: int, product: P)

  /** How an operation ended. `OutOfStock` is the error with its own
      notification; `NotInCart` and `FetchFailed` both end in the
      operation's generic notification. `Ignored` is the silent no-op of
      setting a non-positive amount. */
  datatype Status = Ok | Ignored | OutOfStock | NotInCart | FetchFailed

  /** The operation a notification belongs to. */
  datatype Operation = Adding | Removing | Updating

  /** The outcome of an operation: its status and the cart it leaves. */
  datatype Step<P> = Step(status: Status, cart: seq<Entry<P>>)

  const OutOfStockMessage: string := "Quantidade solicitada fora de estoque"
  const AddErrorMessage: string := "Erro na adição do produto"
  const RemoveErrorMessage: string := "Erro na remoção do produto"
  const UpdateErrorMessage: string := "Erro na alteração de quantidade do produto"

  // ---------------------------------------------------------------------
  // Cart invariants

  /** The source's `cart.some(product => product.id === id)`: scans the
      entries from the front and stops at the first one carrying `id`. */
  function Has<P>(cart: seq<Entry<P>>, id: int): (found: bool)
    ensures found <==> exists i | 0 <= i < |cart| :: cart[i].id == id
    decreases |cart|
  {
    cart != [] && (cart[0].id == id || Has(cart[1..], id))
  }

  /** No product id occurs twice. */
  ghost predicate Unique<P>(cart: seq<Entry<P>>)
  {
    forall i, j | 0 <= i < j < |cart| :: cart[i].id != cart[j].id
  }

  /** Every entry holds at least one unit. */
  ghost predicate Positive<P>(cart: seq<Entry<P>>)
  {
    forall i | 0 <= i < |cart| :: cart[i].amount >= 1
  }

  ghost predicate WellFormed<P>(cart: seq<Entry<P>>)
  {
    Unique(cart) && Positive(cart)
  }

  // ---------------------------------------------------------------------
  // The list transformations the operations are built from

  /** What the increment callback makes of one entry when it does not throw. */
  function Incremented<P>(e: Entry<P>, id: int): (r: Entry<P>)
    ensures r.id == e.id && r.product == e.product
    ensures r.amount == if e.id == id then e.amount + 1 else e.amount
  {
    if e.id == id then e.(amount := e.amount + 1) else e
  }

  /** The `map` of `addProduct`: every entry of product `id` gains one unit,
      and the whole map fails (`None`) as soon as such an entry already holds
      `stock` units or more. */
  function Bump<P>(cart: seq<Entry<P>>, id: int, stock: int): (r: Option<seq<Entry<P>>>)
    ensures r.Some? <==> forall i | 0 <= i < |cart| && cart[i].id == id :: cart[i].amount < stock
    ensures r.Some? ==> |r.value| == |cart|
    ensures r.Some? ==> forall i | 0 <= i < |cart| :: r.value[i] == Incremented(cart[i], id)
    decreases |cart|
  {
    if cart == [] then Some([])
    else if cart[0].id == id && !(cart[0].amount < stock) then None
    else
      match Bump(cart[1..], id, stock)
      case None => None
      case Some(rest) => Some([Incremented(cart[0], id)] + rest)
  }

  /** The `map` of `updateProductAmount`: every entry of product `id` gets
      exactly `amount` units; every other entry is kept as it is. */
  function Assigned<P>(cart: seq<Entry<P>>, id: int, amount: int): (r: seq<Entry<P>>)
    ensures |r| == |cart|
    ensures forall i | 0 <= i < |cart| ::
              r[i] == if cart[i].id == id then cart[i].(amount := amount) else cart[i]
    decreases |cart|
  {
    if cart == [] then []
    else
      var e := cart[0];
      [if e.id == id then e.(amount := amount) else e] + Assigned(cart[1..], id, amount)
  }

  /** The `filter` of `removeProduct`: the entries whose id differs from `id`. */
  function Without<P>(cart: seq<Entry<P>>, id: int): (r: seq<Entry<P>>)
    ensures |r| <= |cart|
    ensures !Has(r, id)
    ensures forall i | 0 <= i < |r| :: r[i] in cart
    ensures forall i | 0 <= i < |cart| && cart[i].id != id :: cart[i] in r
    ensures Has(cart, id) ==> |r| < |cart|
    decreases |cart|
  {
    if cart == [] then []
    else if cart[0].id == id then Without(cart[1..], id)
    else [cart[0]] + Without(cart[1..], id)
  }

  /** A single entry survives the filter exactly when it does not carry `id`. */
  lemma WithoutSingle<P>(e: Entry<P>, id: int)
    ensures Without([e], id) == if e.id == id then [] else [e]
  {
    assert [e][1..] == [];
  }

  /** Filtering a concatenation filters each part and keeps them in order.
      With `WithoutSingle` this fixes the result of the filter entry by entry,
      its order and its repetitions included, for every cart. */
  lemma {:induction false} WithoutConcat<P>(a: seq<Entry<P>>, b: seq<Entry<P>>, id: int)
    ensures Without(a + b, id) == Without(a, id) + Without(b, id)
    decreases |a|
  {
    if a == [] {
      assert a + b == b;
    } else {
      var ab := a + b;
      assert ab[0] == a[0];
      assert ab[1..] == a[1..] + b;
      WithoutConcat(a[1..], b, id);
      if a[0].id == id {
        calc {
          Without(ab, id);
          Without(ab[1..], id);
          Without(a[1..], id) + Without(b, id);
          Without(a, id) + Without(b, id);
        }
      } else {
        calc {
          Without(ab, id);
          [a[0]] + Without(ab[1..], id);
          [a[0]] + (Without(a[1..], id) + Without(b, id));
          ([a[0]] + Without(a[1..], id)) + Without(b, id);
          Without(a, id) + Without(b, id);
        }
      }
    }
  }

  /** Removing the entry at `k` of a cart without repeated ids keeps all the
      other entries, in their order. */
  lemma {:induction false} WithoutAt<P>(cart: seq<Entry<P>>, k: int)
    requires Unique(cart)
    requires 0 <= k < |cart|
    ensures Without(cart, cart[k].id) == cart[..k] + cart[k + 1..]
    decreases |cart|
  {
    var id := cart[k].id;
    if k == 0 {
      WithoutAbsent(cart[1..], id);
      assert cart[k + 1..] == cart[1..];
    } else {
      assert cart[1..][k - 1] == cart[k];
      WithoutAt(cart[1..], k - 1);
      assert cart[1..][..k - 1] == cart[1..k];
      assert cart[1..][k..] == cart[k + 1..];
      assert cart[..k] == [cart[0]] + cart[1..k];
    }
  }

  /** Filtering out an id that no entry carries keeps the cart as it is. */
  lemma {:induction false} WithoutAbsent<P>(cart: seq<Entry<P>>, id: int)
    requires !Has(cart, id)
    ensures Without(cart, id) == cart
    decreases |cart|
  {
    if cart != [] {
      assert cart[0].id != id;
      assert !Has(cart[1..], id) by {
        forall i | 0 <= i < |cart[1..]| ensures cart[1..][i].id != id {
          assert cart[1..][i] == cart[i + 1];
        }
      }
      WithoutAbsent(cart[1..], id);
      assert cart == [cart[0]] + cart[1..];
    }
  }

  // ---------------------------------------------------------------------
  // The three operations as transitions of the cart

  /** `addProduct(productId)`, given the answer of the stock request and the
      answer the product request would give. The stock check comes first, the
      membership test second; the product request is consulted only for a
      product not yet in the cart. */
  function Add<P>(cart: seq<Entry<P>>, productId: int, stock: Fetch<int>, product: Fetch<P>): (s: Step<P>)
    // a rejected stock request, or no stock at all, fails before the cart is looked at
    ensures stock.Failed? ==> s == Step(FetchFailed, cart)
    ensures stock.Fetched? && stock.value < 1 ==> s == Step(OutOfStock, cart)
    ensures s.status in {Ok, OutOfStock, FetchFailed}
    ensures s.status != Ok ==> s.cart == cart
    // the only failure of a product already in the cart is out of stock
    ensures stock.Fetched? && Has(cart, productId) && s.status != Ok ==> s.status == OutOfStock
    // a product already in the cart: one more unit while below the stock, else out of stock
    ensures stock.Fetched? && stock.value >= 1 && Has(cart, productId) ==>
              (s.status == Ok <==> forall i | 0 <= i < |cart| && cart[i].id == productId :: cart[i].amount < stock.value)
    ensures stock.Fetched? && stock.value >= 1 && Has(cart, productId) && s.status == Ok ==>
              |s.cart| == |cart| && forall i | 0 <= i < |cart| :: s.cart[i] == Incremented(cart[i], productId)
    // a new product: one entry with one unit at the end, or the product request's failure
    ensures stock.Fetched? && stock.value >= 1 && !Has(cart, productId) ==>
              (s.status == Ok <==> product.Fetched?)
    ensures stock.Fetched? && stock.value >= 1 && !Has(cart, productId) && product.Failed? ==>
              s == Step(FetchFailed, cart)
    ensures stock.Fetched? && stock.value >= 1 && !Has(cart, productId) && s.status == Ok ==>
              s.cart == cart + [Entry(productId, 1, product.value)]
    // after a success the product's amount is within the stock just read
    ensures s.status == Ok ==>
              stock.Fetched? && forall i | 0 <= i < |s.cart| && s.cart[i].id == productId :: s.cart[i].amount <= stock.value
    ensures WellFormed(cart) ==> WellFormed(s.cart)
  {
    if stock.Failed? then Step(FetchFailed, cart)
    else if stock.value < 1 then Step(OutOfStock, cart)
    else if Has(cart, productId) then
      match Bump(cart, productId, stock.value)
      case None => Step(OutOfStock, cart)
      case Some(bumped) => Step(Ok, bumped)
    else
      match product
      case Failed => Step(FetchFailed, cart)
      case Fetched(p) => Step(Ok, cart + [Entry(productId, 1, p)])
  }

  /** `removeProduct(productId)`. */
  function Remove<P>(cart: seq<Entry<P>>, productId: int): (s: Step<P>)
    ensures s.status in {Ok, NotInCart}
    ensures s.status == NotInCart <==> !Has(cart, productId)
    ensures s.status != Ok ==> s.cart == cart
    ensures s.status == Ok ==> !Has(s.cart, productId) && |s.cart| < |cart|
    ensures s.status == Ok ==> forall i | 0 <= i < |cart| && cart[i].id != productId :: cart[i] in s.cart
    ensures WellFormed(cart) ==> WellFormed(s.cart)
  {
    if !Has(cart, productId) then Step(NotInCart, cart)
    else
      RemoveWellFormed(cart, productId);
      Step(Ok, Without(cart, productId))
  }

  /** Filtering a product out of a well-formed cart keeps it well formed. */
  lemma RemoveWellFormed<P>(cart: seq<Entry<P>>, id: int)
    ensures WellFormed(cart) ==> WellFormed(Without(cart, id))
  {
    if WellFormed(cart) && Has(cart, id) {
      var k :| 0 <= k < |cart| && cart[k].id == id;
      WithoutAt(cart, k);
      DropWellFormed(cart, k);
    } else if WellFormed(cart) {
      WithoutAbsent(cart, id);
    }
  }

  /** Cutting one entry out of a well-formed cart leaves it well formed. */
  lemma DropWellFormed<P>(cart: seq<Entry<P>>, k: int)
    requires WellFormed(cart)
    requires 0 <= k < |cart|
    ensures WellFormed(cart[..k] + cart[k + 1..])
  {
    var r := cart[..k] + cart[k + 1..];
    forall i | 0 <= i < |r| ensures r[i] == cart[if i < k then i else i + 1] {
    }
  }

  /** `updateProductAmount({productId, amount})`, given the answer of the
      stock request. A non-positive amount returns at once; otherwise the
      stock check comes before the membership test, and an absent product is
      never created. */
  function Update<P>(cart: seq<Entry<P>>, productId: int, amount: int, stock: Fetch<int>): (s: Step<P>)
    ensures amount <= 0 ==> s == Step(Ignored, cart)
    ensures amount > 0 && stock.Failed? ==> s == Step(FetchFailed, cart)
    // out of stock wins over "not in the cart"
    ensures amount > 0 && stock.Fetched? && amount > stock.value ==> s == Step(OutOfStock, cart)
    ensures amount > 0 && stock.Fetched? && amount <= stock.value ==>
              (s.status == Ok <==> Has(cart, productId))
    // an absent product within the stock is refused, never created
    ensures amount > 0 && stock.Fetched? && amount <= stock.value && !Has(cart, productId) ==>
              s == Step(NotInCart, cart)
    ensures s.status != Ok ==> s.cart == cart
    ensures s.status == Ok ==> 0 < amount && stock.Fetched? && amount <= stock.value
    ensures s.status == Ok ==>
              |s.cart| == |cart| &&
              forall i | 0 <= i < |cart| ::
                s.cart[i] == if cart[i].id == productId then cart[i].(amount := amount) else cart[i]
    ensures WellFormed(cart) ==> WellFormed(s.cart)
  {
    if amount <= 0 then Step(Ignored, cart)
    else if stock.Failed? then Step(FetchFailed, cart)
    else if amount > stock.value then Step(OutOfStock, cart)
    else if Has(cart, productId) then Step(Ok, Assigned(cart, productId, amount))
    else Step(NotInCart, cart)
  }

  /** The notification an operation shows for a status, if any. */
  function Message(op: Operation, status: Status): (m: Option<string>)
    ensures m.None? <==> status in {Ok, Ignored}
    ensures op != Removing && status == OutOfStock ==> m == Some(OutOfStockMessage)
    // "not in the cart" and a failed request are not told apart
    ensures status in {NotInCart, FetchFailed} ==> m == Some(GenericMessage(op))
    ensures op == Removing && m.Some? ==> m == Some(RemoveErrorMessage)
  {
    if status == Ok || status == Ignored then None
    else if status == OutOfStock && op != Removing then Some(OutOfStockMessage)
    else Some(GenericMessage(op))
  }

  /** The catch-all notification of each operation. */
  function GenericMessage(op: Operation): (m: string)
    ensures m != OutOfStockMessage
    ensures m == AddErrorMessage <==> op == Adding
    ensures m == RemoveErrorMessage <==> op == Removing
    ensures m == UpdateErrorMessage <==> op == Updating
  {
    match op
    case Adding => AddErrorMessage
    case Removing => RemoveErrorMessage
    case Updating => UpdateErrorMessage
  }

  // ---------------------------------------------------------------------
  // Properties that relate the transitions to a single entry or to each other

  /** Adding a product held at index `k` of a cart without repeated ids
      changes that entry alone: one more unit while it is below the stock,
      otherwise out of stock and nothing changes. */
  lemma AddExisting<P>(cart: seq<Entry<P>>, k: int, stock: int, product: Fetch<P>)
    requires Unique(cart)
    requires 0 <= k < |cart|
    requires stock >= 1
    ensures Add(cart, cart[k].id, Fetched(stock), product) ==
              if cart[k].amount < stock then Step(Ok, cart[k := cart[k].(amount := cart[k].amount + 1)])
              else Step(OutOfStock, cart)
  {
  }

  /** Setting the amount of the product at index `k` of a cart without
      repeated ids replaces that entry's amount by exactly `amount`. */
  lemma UpdateExisting<P>(cart: seq<Entry<P>>, k: int, amount: int, stock: int)
    requires Unique(cart)
    requires 0 <= k < |cart|
    requires 0 < amount <= stock
    ensures Update(cart, cart[k].id, amount, Fetched(stock)) == Step(Ok, cart[k := cart[k].(amount := amount)])
  {
  }

  /** Removing the product at index `k` of a cart without repeated ids
      leaves the other entries, with their amounts, in their order. */
  lemma RemoveExisting<P>(cart: seq<Entry<P>>, k: int)
    requires Unique(cart)
    requires 0 <= k < |cart|
    ensures Remove(cart, cart[k].id) == Step(Ok, cart[..k] + cart[k + 1..])
  {
    assert Has(cart, cart[k].id);
    WithoutAt(cart, k);
  }

  /** Setting an amount is absolute, not an increment: setting the same
      amount again changes nothing. */
  lemma UpdateIdempotent<P>(cart: seq<Entry<P>>, productId: int, amount: int, stock: Fetch<int>)
    ensures var once := Update(cart, productId, amount, stock);
            once.status == Ok ==> Update(once.cart, productId, amount, stock) == once
  {
  }

  /** The product request matters only for a product not yet in the cart and
      with stock: before the stock check and for a product already present,
      its answer does not change the outcome. A readable restatement, as one
      relation, of what the contract of `Add` already gives case by case. */
  lemma AddIgnoresProductLookup<P>(cart: seq<Entry<P>>, productId: int, stock: Fetch<int>, one: Fetch<P>, other: Fetch<P>)
    requires stock.Failed? || stock.value < 1 || Has(cart, productId)
    ensures Add(cart, productId, stock, one) == Add(cart, productId, stock, other)
  {
  }

  /** A session on an empty cart with five units of product 1 in stock: two
      adds, a set to five, a refused set to six, and a removal. */
  lemma Walkthrough<P>(details: P)
    ensures var s1 := Add([], 1, Fetched(5), Fetched(details));
            var s2 := Add(s1.cart, 1, Fetched(5), Fetched(details));
            var s3 := Update(s2.cart, 1, 5, Fetched(5));
            var s4 := Update(s3.cart, 1, 6, Fetched(5));
            var s5 := Remove(s4.cart, 1);
            s1 == Step(Ok, [Entry(1, 1, details)]) &&
            s2 == Step(Ok, [Entry(1, 2, details)]) &&
            s3 == Step(Ok, [Entry(1, 5, details)]) &&
            s4 == Step(OutOfStock, [Entry(1, 5, details)]) &&
            s5 == Step(Ok, [])
  {
  }

  // ---------------------------------------------------------------------
  // The store: the cart and its stored copy

  /** The cart a page load starts from: the stored snapshot if there is one,
      the empty cart otherwise. */
  function Restore<P>(stored: Option<seq<Entry<P>>>): (c: seq<Entry<P>>)
    ensures stored.None? ==> c == []
    ensures stored.Some? ==> stored == Some(c)
  {
    if stored.Some? then stored.value else []
  }

  /** The cart state of one provider. `persisted` is the stored slot
      (`None` while nothing has been written); it is overwritten with the new
      cart after every successful operation and only then. */
  class CartStore<P> {
    var cart: seq<Entry<P>>
    var persisted: Option<seq<Entry<P>>>

    /** Reloading the page now would restore exactly the current cart. */
    ghost predicate Valid()
      reads this
    {
      Restore(persisted) == cart
    }

    constructor (stored: Option<seq<Entry<P>>>)
      ensures Valid()
      ensures persisted == stored
      ensures cart == Restore(stored)
    {
      cart := Restore(stored);
      persisted := stored;
    }

    /** Applies a step: on success the cart and its stored copy become the
        new cart, on failure nothing changes. */
    method Commit(s: Step<P>)
      requires Valid()
      modifies this
      ensures Valid()
      ensures s.status == Ok ==> cart == s.cart && persisted == Some(s.cart)
      ensures s.status != Ok ==> cart == old(cart) && persisted == old(persisted)
    {
      if s.status == Ok {
        cart := s.cart;
        persisted := Some(s.cart);
      }
    }

    method AddProduct(productId: int, stock: Fetch<int>, product: Fetch<P>) returns (status: Status)
      requires Valid()
      modifies this
      ensures Valid()
      ensures status == Add(old(cart), productId, stock, product).status
      ensures cart == Add(old(cart), productId, stock, product).cart
      ensures persisted == if status == Ok then Some(cart) else old(persisted)
      ensures WellFormed(old(cart)) ==> WellFormed(cart)
    {
      var s := Add(cart, productId, stock, product);
      Commit(s);
      status := s.status;
    }

    method RemoveProduct(productId: int) returns (status: Status)
      requires Valid()
      modifies this
      ensures Valid()
      ensures status == Remove(old(cart), productId).status
      ensures cart == Remove(old(cart), productId).cart
      ensures persisted == if status == Ok then Some(cart) else old(persisted)
      ensures WellFormed(old(cart)) ==> WellFormed(cart)
    {
      var s := Remove(cart, productId);
      Commit(s);
      status := s.status;
    }

    method UpdateProductAmount(productId: int, amount: int, stock: Fetch<int>) returns (status: Status)
      requires Valid()
      modifies this
      ensures Valid()
      ensures status == Update(old(cart), productId, amount, stock).status
      ensures cart == Update(old(cart), productId, amount, stock).cart
      ensures persisted == if status == Ok then Some(cart) else old(persisted)
      ensures WellFormed(old(cart)) ==> WellFormed(cart)
    {
      var s := Update(cart, productId, amount, stock);
      Commit(s);
      status := s.status;
    }
  }
}
