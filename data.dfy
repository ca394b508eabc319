/**
 * The catalog, customer and transaction lists of src/context/DataContext.jsx.
 * Each operation computes a new list with map, filter or spread and stores it
 * in the provider's state; the clock that supplies ids and timestamps is a
 * parameter.
 */
module Data {
  import opened Model
  import Seqs

  /** The fields an update may supply; a missing field keeps its old value (`{ ...p, ...updated }`). */
  datatype ProductPatch = ProductPatch(
    id: Option<int>,
    name: Option<string>,
    category: Option<string>,
    price: Option<PriceValue>,
    duration: Option<string>,
    rating: Option<real>,
    image: Option<string>,
    stock: Option<int>)

  datatype CustomerPatch = CustomerPatch(
    id: Option<int>,
    name: Option<string>,
    email: Option<string>,
    phone: Option<string>,
    totalOrders: Option<int>,
    totalSpent: Option<string>)

  /** A transaction as the checkout page hands it over, before it gets its id. */
  datatype TransactionDraft = TransactionDraft(
    items: seq<CartItem>,
    total: int,
    paymentMethod: string,
    customer: Option<Customer>,
    date: string)

  /** `{ ...p, ...updated }` for a product: supplied fields override, the others are kept. */
  function MergeProduct(p: Product, u: ProductPatch): (r: Product)
    ensures r.id == u.id.GetOr(p.id) && r.name == u.name.GetOr(p.name)
    ensures r.category == u.category.GetOr(p.category) && r.price == u.price.GetOr(p.price)
    ensures r.duration == u.duration.GetOr(p.duration) && r.rating == u.rating.GetOr(p.rating)
    ensures r.image == u.image.GetOr(p.image)
    ensures r.stock == if u.stock.Some? then Some(u.stock.value) else p.stock
  {
    Product(
      u.id.GetOr(p.id), u.name.GetOr(p.name), u.category.GetOr(p.category), u.price.GetOr(p.price),
      u.duration.GetOr(p.duration), u.rating.GetOr(p.rating), u.image.GetOr(p.image),
      if u.stock.Some? then Some(u.stock.value) else p.stock)
  }

  function MergeCustomer(c: Customer, u: CustomerPatch): (r: Customer)
    ensures r.id == u.id.GetOr(c.id) && r.name == u.name.GetOr(c.name)
    ensures r.email == u.email.GetOr(c.email) && r.phone == u.phone.GetOr(c.phone)
    ensures r.totalOrders == u.totalOrders.GetOr(c.totalOrders)
    ensures r.totalSpent == u.totalSpent.GetOr(c.totalSpent)
  {
    Customer(
      u.id.GetOr(c.id), u.name.GetOr(c.name), u.email.GetOr(c.email), u.phone.GetOr(c.phone),
      u.totalOrders.GetOr(c.totalOrders), u.totalSpent.GetOr(c.totalSpent))
  }

  /** `products.map(p => p.id === id ? { ...p, ...updated } : p)`. */
  function UpdatedProducts(ps: seq<Product>, id: int, u: ProductPatch): (r: seq<Product>)
    ensures |r| == |ps|
    ensures forall k :: 0 <= k < |ps| ==> r[k] == if ps[k].id == id then MergeProduct(ps[k], u) else ps[k]
  {
    if ps == [] then []
    else [if ps[0].id == id then MergeProduct(ps[0], u) else ps[0]] + UpdatedProducts(ps[1..], id, u)
  }

  /** `customers.map(c => c.id === id ? { ...c, ...updated } : c)`. */
  function UpdatedCustomers(cs: seq<Customer>, id: int, u: CustomerPatch): (r: seq<Customer>)
    ensures |r| == |cs|
    ensures forall k :: 0 <= k < |cs| ==> r[k] == if cs[k].id == id then MergeCustomer(cs[k], u) else cs[k]
  {
    if cs == [] then []
    else [if cs[0].id == id then MergeCustomer(cs[0], u) else cs[0]] + UpdatedCustomers(cs[1..], id, u)
  }

  /** `products.filter(p => p.id !== id)`. */
  function DeletedProducts(ps: seq<Product>, id: int): (r: seq<Product>)
    ensures forall k :: 0 <= k < |r| ==> r[k].id != id
    ensures forall p :: p in r <==> p in ps && p.id != id
  {
    Seqs.Filter(ps, (p: Product) => p.id != id)
  }

  /** `customers.filter(c => c.id !== id)`. */
  function DeletedCustomers(cs: seq<Customer>, id: int): (r: seq<Customer>)
    ensures forall k :: 0 <= k < |r| ==> r[k].id != id
    ensures forall c :: c in r <==> c in cs && c.id != id
  {
    Seqs.Filter(cs, (c: Customer) => c.id != id)
  }

  /** The customer `addCustomer` stores: a fresh id and zeroed order statistics. */
  function NewCustomer(c: Customer, now: int): (r: Customer)
    ensures r.id == now && r.totalOrders == 0 && r.totalSpent == "Rp 0"
    ensures r.name == c.name && r.email == c.email && r.phone == c.phone
  {
    c.(id := now, totalOrders := 0, totalSpent := "Rp 0")
  }

  /** The transaction `addTransaction` stores: the draft with a fresh id and the current date. */
  function Stamped(d: TransactionDraft, now: int, isoDate: string): (t: Transaction)
    ensures t.id == now && t.date == isoDate
    ensures t.items == d.items && t.total == d.total
    ensures t.paymentMethod == d.paymentMethod && t.customer == d.customer
  {
    Transaction(now, d.items, d.total, d.paymentMethod, d.customer, isoDate)
  }

  function Max(a: int, b: int): int {
    if a >= b then a else b
  }

  /** The new stock of a sold product: `Math.max(0, (p.stock || 0) - quantity)`. */
  function ReducedStock(p: Product, quantity: int): (s: int)
    ensures s >= 0
    ensures s == 0 || s == p.stock.GetOr(0) - quantity
    ensures s >= p.stock.GetOr(0) - quantity
  {
    Max(0, p.stock.GetOr(0) - quantity)
  }

  /** `updateProductStock`: the matching products get their stock reduced, clamped at 0. */
  function Restocked(ps: seq<Product>, id: int, quantity: int): (r: seq<Product>)
    ensures |r| == |ps|
    ensures forall k :: 0 <= k < |ps| && ps[k].id != id ==> r[k] == ps[k]
    ensures forall k :: 0 <= k < |ps| && ps[k].id == id ==>
      r[k] == ps[k].(stock := Some(ReducedStock(ps[k], quantity)))
  {
    if ps == [] then []
    else
      var head := if ps[0].id == id then ps[0].(stock := Some(ReducedStock(ps[0], quantity))) else ps[0];
      [head] + Restocked(ps[1..], id, quantity)
  }

  // ---------------------------------------------------------------------------
  // Properties of the list operations
  // ---------------------------------------------------------------------------

  /** An update for an id no product has changes nothing; an empty patch changes nothing. */
  lemma UpdateProductsNoop(ps: seq<Product>, id: int, u: ProductPatch)
    requires (forall k :: 0 <= k < |ps| ==> ps[k].id != id) ||
             u == ProductPatch(None, None, None, None, None, None, None, None)
    ensures UpdatedProducts(ps, id, u) == ps
  {
  }

  /** Deleting keeps the other products in their order; deleting an absent id changes nothing. */
  lemma DeletedProductsSpec(ps: seq<Product>, id: int)
    ensures Seqs.IsSubsequence(DeletedProducts(ps, id), ps)
    ensures (forall k :: 0 <= k < |ps| ==> ps[k].id != id) ==> DeletedProducts(ps, id) == ps
  {
    Seqs.FilterIsSubsequence(ps, (p: Product) => p.id != id);
    if forall k :: 0 <= k < |ps| ==> ps[k].id != id {
      Seqs.FilterKeepsAll(ps, (p: Product) => p.id != id);
    }
  }

  /** Deleting keeps the other customers in their order; deleting an absent id changes nothing. */
  lemma DeletedCustomersSpec(cs: seq<Customer>, id: int)
    ensures Seqs.IsSubsequence(DeletedCustomers(cs, id), cs)
    ensures (forall k :: 0 <= k < |cs| ==> cs[k].id != id) ==> DeletedCustomers(cs, id) == cs
  {
    Seqs.FilterIsSubsequence(cs, (c: Customer) => c.id != id);
    if forall k :: 0 <= k < |cs| ==> cs[k].id != id {
      Seqs.FilterKeepsAll(cs, (c: Customer) => c.id != id);
    }
  }

  /** After `updateProductStock`, no matching product has a negative or missing stock. */
  lemma RestockedNeverNegative(ps: seq<Product>, id: int, quantity: int)
    ensures forall k :: 0 <= k < |ps| && ps[k].id == id ==>
      Restocked(ps, id, quantity)[k].stock.Some? && Restocked(ps, id, quantity)[k].stock.value >= 0
  {
  }

  // ---------------------------------------------------------------------------
  // The provider's state
  // ---------------------------------------------------------------------------

  const InitialProducts: seq<Product> := [
    Product(1, "Cappuccino", "Coffee", Text("Rp 25.000"), "3-5min", 4.9, "☕", Some(50)),
    Product(2, "Croissant", "Pastry", Text("Rp 18.000"), "2min", 4.7, "🥐", Some(30)),
    Product(3, "Matcha Latte", "Drinks", Text("Rp 32.000"), "4min", 4.8, "🍵", Some(40)),
    Product(4, "Club Sandwich", "Food", Text("Rp 45.000"), "8min", 4.6, "🥪", Some(25)),
    Product(5, "Cheesecake", "Dessert", Text("Rp 35.000"), "2min", 4.9, "🍰", Some(20)),
    Product(6, "Americano", "Coffee", Text("Rp 20.000"), "3min", 4.5, "☕", Some(45)),
    Product(7, "Croissant Chocolate", "Pastry", Text("Rp 22.000"), "2min", 4.8, "🥐", Some(28)),
    Product(8, "Iced Lemon Tea", "Drinks", Text("Rp 28.000"), "3min", 4.4, "🍋", Some(35))
  ]

  const InitialCustomers: seq<Customer> := [
    Customer(1, "John Doe", "john@example.com", "081234567890", 12, "Rp 450.000"),
    Customer(2, "Jane Smith", "jane@example.com", "081234567891", 8, "Rp 320.000"),
    Customer(3, "Bob Wilson", "bob@example.com", "081234567892", 5, "Rp 180.000"),
    Customer(4, "Alice Brown", "alice@example.com", "081234567893", 15, "Rp 620.000")
  ]

  /** The three lists the provider holds; the transaction log is most recent first. */
  class DataStore {
    var products: seq<Product>
    var customers: seq<Customer>
    var transactions: seq<Transaction>

    /** The state when nothing was saved before. */
    constructor ()
      ensures products == InitialProducts && customers == InitialCustomers && transactions == []
    {
      products := InitialProducts;
      customers := InitialCustomers;
      transactions := [];
    }

    method AddProduct(p: Product, now: int) returns (created: Product)
      modifies this`products
      ensures created == p.(id := now)
      ensures products == old(products) + [created]
    {
      created := p.(id := now);
      products := products + [created];
    }

    method UpdateProduct(id: int, u: ProductPatch)
      modifies this`products
      ensures products == UpdatedProducts(old(products), id, u)
    {
      products := UpdatedProducts(products, id, u);
    }

    method DeleteProduct(id: int)
      modifies this`products
      ensures products == DeletedProducts(old(products), id)
    {
      products := DeletedProducts(products, id);
    }

    method AddCustomer(c: Customer, now: int) returns (created: Customer)
      modifies this`customers
      ensures created == NewCustomer(c, now)
      ensures customers == old(customers) + [created]
    {
      created := NewCustomer(c, now);
      customers := customers + [created];
    }

    method UpdateCustomer(id: int, u: CustomerPatch)
      modifies this`customers
      ensures customers == UpdatedCustomers(old(customers), id, u)
    {
      customers := UpdatedCustomers(customers, id, u);
    }

    method DeleteCustomer(id: int)
      modifies this`customers
      ensures customers == DeletedCustomers(old(customers), id)
    {
      customers := DeletedCustomers(customers, id);
    }

    /** The new transaction goes first: the log is most recent first. */
    method AddTransaction(d: TransactionDraft, now: int, isoDate: string) returns (created: Transaction)
      modifies this`transactions
      ensures created == Stamped(d, now, isoDate)
      ensures transactions == [created] + old(transactions)
    {
      created := Stamped(d, now, isoDate);
      transactions := [created] + transactions;
    }

    method UpdateProductStock(productId: int, quantity: int)
      modifies this`products
      ensures products == Restocked(old(products), productId, quantity)
    {
      products := Restocked(products, productId, quantity);
    }
  }
}
