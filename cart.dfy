/**
 * The cart of src/context/CartContext.jsx: a reducer over
 * {items, customer, paymentMethod}, the store that holds its current state,
 * and the two totals derived from the items.
 */
module Cart {
  import opened Model
  import Price
  import Seqs
  import Arith

  datatype CartState = CartState(items: seq<CartItem>, customer: Option<Customer>, paymentMethod: string)

  /** The state at start-up and after CLEAR_CART. */
  const InitialState: CartState := CartState([], None, "cash")

  /** The reducer's actions; `Unknown` stands for any other action type. */
  datatype Action =
    | AddItem(product: Product)
    | RemoveItem(id: int)
    | UpdateQuantity(id: int, quantity: int)
    | SetCustomer(customer: Option<Customer>)
    | SetPaymentMethod(paymentMethod: string)
    | ClearCart
    | LoadCart(saved: CartState)
    | Unknown(kind: string)

  predicate HasId(items: seq<CartItem>, id: int) {
    exists k :: 0 <= k < |items| && items[k].Id() == id
  }

  predicate DistinctIds(items: seq<CartItem>) {
    forall i, j :: 0 <= i < j < |items| ==> items[i].Id() != items[j].Id()
  }

  predicate AllPositive(items: seq<CartItem>) {
    forall k :: 0 <= k < |items| ==> items[k].quantity >= 1
  }

  /** The cart invariant: one line per product id, every quantity at least 1. */
  predicate Valid(items: seq<CartItem>) {
    DistinctIds(items) && AllPositive(items)
  }

  /** `items.findIndex(item => item.id === id)`: the first matching line, or -1. */
  function FindIndex(items: seq<CartItem>, id: int): (i: int)
    ensures -1 <= i < |items|
    ensures i >= 0 ==> items[i].Id() == id && forall k :: 0 <= k < i ==> items[k].Id() != id
    ensures i == -1 <==> !HasId(items, id)
  {
    if items == [] then -1
    else if items[0].Id() == id then 0
    else
      var j := FindIndex(items[1..], id);
      assert forall k :: 1 <= k < |items| ==> items[k] == items[1..][k - 1];
      if j == -1 then -1 else j + 1
  }

  /**
   * ADD_ITEM: the line found for the product's id has its quantity raised by
   * one in place; otherwise the product is appended with quantity 1. The
   * stock of the product is not consulted.
   */
  function AddLine(items: seq<CartItem>, p: Product): (r: seq<CartItem>)
    ensures |r| == if HasId(items, p.id) then |items| else |items| + 1
  {
    var i := FindIndex(items, p.id);
    if i > -1 then items[i := items[i].(quantity := items[i].quantity + 1)]
    else items + [CartItem(p, 1)]
  }

  /** REMOVE_ITEM: `items.filter(item => item.id !== id)`. */
  function RemoveLines(items: seq<CartItem>, id: int): (r: seq<CartItem>)
    ensures !HasId(r, id)
    ensures forall l :: l in r <==> l in items && l.Id() != id
  {
    Seqs.Filter(items, (l: CartItem) => l.Id() != id)
  }

  /** The `map` half of UPDATE_QUANTITY: every line with the id gets the new quantity. */
  function SetQuantity(items: seq<CartItem>, id: int, q: int): (r: seq<CartItem>)
    ensures |r| == |items|
    ensures forall k :: 0 <= k < |r| ==>
      r[k].product == items[k].product &&
      r[k].quantity == (if items[k].Id() == id then q else items[k].quantity)
  {
    if items == [] then []
    else
      var head := if items[0].Id() == id then items[0].(quantity := q) else items[0];
      [head] + SetQuantity(items[1..], id, q)
  }

  /** UPDATE_QUANTITY: set the quantity, then drop every line whose quantity is not positive. */
  function UpdateLines(items: seq<CartItem>, id: int, q: int): (r: seq<CartItem>)
    ensures AllPositive(r) && |r| <= |items|
  {
    Seqs.Filter(SetQuantity(items, id, q), (l: CartItem) => l.quantity > 0)
  }

  /** `cartReducer(state, action)`. */
  function Reduce(s: CartState, a: Action): (r: CartState)
    ensures (a.AddItem? || a.RemoveItem? || a.UpdateQuantity?) ==>
      r.customer == s.customer && r.paymentMethod == s.paymentMethod
    ensures a.SetCustomer? ==>
      r.items == s.items && r.paymentMethod == s.paymentMethod && r.customer == a.customer
    ensures a.SetPaymentMethod? ==>
      r.items == s.items && r.customer == s.customer && r.paymentMethod == a.paymentMethod
    ensures a.ClearCart? ==> r.items == [] && r.customer.None? && r.paymentMethod == "cash"
    ensures a.LoadCart? ==> r == a.saved
    ensures a.Unknown? ==> r == s
  {
    match a
    case AddItem(p) => s.(items := AddLine(s.items, p))
    case RemoveItem(id) => s.(items := RemoveLines(s.items, id))
    case UpdateQuantity(id, q) => s.(items := UpdateLines(s.items, id, q))
    case SetCustomer(c) => s.(customer := c)
    case SetPaymentMethod(m) => s.(paymentMethod := m)
    case ClearCart => s.(items := [], customer := None, paymentMethod := "cash")
    case LoadCart(saved) => saved
    case Unknown(_) => s
  }

  /** `totalItems`: the reduce over the lines, summing quantities; at least one per line in a valid cart. */
  function TotalItems(items: seq<CartItem>): (n: int)
    ensures AllPositive(items) ==> n >= |items|
  {
    if items == [] then 0
    else TotalItems(items[..|items| - 1]) + items[|items| - 1].quantity
  }

  /**
   * `totalPrice`: the reduce over the lines, summing parsed price times
   * quantity; never negative when no line has a negative price or quantity.
   */
  function TotalPrice(items: seq<CartItem>): (total: int)
    ensures (forall k :: 0 <= k < |items| ==> Price.ParsePrice(items[k].product.price) >= 0 && items[k].quantity >= 0) ==>
      total >= 0
  {
    if items == [] then 0
    else
      var last := items[|items| - 1];
      TotalPrice(items[..|items| - 1]) + Price.ParsePrice(last.product.price) * last.quantity
  }

  // ---------------------------------------------------------------------------
  // Properties of the actions
  // ---------------------------------------------------------------------------

  /** ADD_ITEM for a new id appends one line carrying the product and quantity 1. */
  lemma AddNewAppends(items: seq<CartItem>, p: Product)
    requires !HasId(items, p.id)
    ensures AddLine(items, p) == items + [CartItem(p, 1)]
    ensures AddLine(items, p)[|items|].product == p
  {
  }

  /**
   * ADD_ITEM for an id already in a valid cart raises exactly that line's
   * quantity by one; the line keeps its own product fields, and every other
   * line, the line count and the order are unchanged.
   */
  lemma AddExistingIncrements(items: seq<CartItem>, p: Product)
    requires DistinctIds(items) && HasId(items, p.id)
    ensures |AddLine(items, p)| == |items|
    ensures forall k :: 0 <= k < |items| ==>
      AddLine(items, p)[k].product == items[k].product &&
      AddLine(items, p)[k].quantity == items[k].quantity + (if items[k].Id() == p.id then 1 else 0)
  {
    var i := FindIndex(items, p.id);
    var r := AddLine(items, p);
    forall k | 0 <= k < |items|
      ensures r[k].product == items[k].product
      ensures r[k].quantity == items[k].quantity + (if items[k].Id() == p.id then 1 else 0)
    {
      if k != i {
        assert items[k].Id() != p.id by {
          if k < i {
          } else {
            assert items[i].Id() != items[k].Id();
          }
        }
      }
    }
  }

  /** REMOVE_ITEM keeps the remaining lines in their order. */
  lemma RemoveLinesSpec(items: seq<CartItem>, id: int)
    ensures Seqs.IsSubsequence(RemoveLines(items, id), items)
  {
    Seqs.FilterIsSubsequence(items, (l: CartItem) => l.Id() != id);
  }

  /** Removing an id that is not in the cart leaves the items unchanged. */
  lemma RemoveAbsentIsNoop(items: seq<CartItem>, id: int)
    requires !HasId(items, id)
    ensures RemoveLines(items, id) == items
  {
    Seqs.FilterKeepsAll(items, (l: CartItem) => l.Id() != id);
  }

  /**
   * UPDATE_QUANTITY keeps the lines of the updated cart whose quantity is
   * positive (also lines of other ids, for instance ones restored by
   * LOAD_CART), in order.
   */
  lemma UpdateLinesKeepsOrder(items: seq<CartItem>, id: int, q: int)
    ensures Seqs.IsSubsequence(UpdateLines(items, id, q), SetQuantity(items, id, q))
  {
    Seqs.FilterIsSubsequence(SetQuantity(items, id, q), (l: CartItem) => l.quantity > 0);
  }

  /** On a cart whose quantities are positive, a positive UPDATE_QUANTITY only changes the matching line. */
  lemma UpdatePositiveSetsQuantity(items: seq<CartItem>, id: int, q: int)
    requires AllPositive(items) && q > 0
    ensures UpdateLines(items, id, q) == SetQuantity(items, id, q)
  {
    Seqs.FilterKeepsAll(SetQuantity(items, id, q), (l: CartItem) => l.quantity > 0);
  }

  /** In a cart with distinct ids, line i is the line `findIndex` finds for its id. */
  lemma FindIndexAtUnique(items: seq<CartItem>, i: nat)
    requires DistinctIds(items) && i < |items|
    ensures FindIndex(items, items[i].Id()) == i
  {
    var j := FindIndex(items, items[i].Id());
    assert HasId(items, items[i].Id());
    assert !(j < i || i < j);
  }

  /** In a cart with distinct ids, setting the quantity of line i's id changes line i alone. */
  lemma SetQuantityAtUnique(items: seq<CartItem>, i: nat, q: int)
    requires DistinctIds(items) && i < |items|
    ensures SetQuantity(items, items[i].Id(), q) == items[i := items[i].(quantity := q)]
  {
    var r := SetQuantity(items, items[i].Id(), q);
    forall k | 0 <= k < |items|
      ensures r[k] == items[i := items[i].(quantity := q)][k]
    {
      if k != i {
        assert items[k].Id() != items[i].Id() by {
          assert !(k < i || i < k) || items[k].Id() != items[i].Id();
        }
      }
    }
  }

  /** In a valid cart, UPDATE_QUANTITY of a line to one more is ADD_ITEM of its product. */
  lemma RaiseIsAdd(items: seq<CartItem>, i: nat, line: CartItem)
    requires Valid(items) && i < |items| && items[i] == line
    ensures UpdateLines(items, line.Id(), line.quantity + 1) == AddLine(items, line.product)
  {
    UpdateRaises(items, i, line);
    AddRaises(items, i, line);
  }

  lemma UpdateRaises(items: seq<CartItem>, i: nat, line: CartItem)
    requires Valid(items) && i < |items| && items[i] == line
    ensures UpdateLines(items, line.Id(), line.quantity + 1) == items[i := line.(quantity := line.quantity + 1)]
  {
    var id, q := line.Id(), line.quantity + 1;
    UpdatePositiveSetsQuantity(items, id, q);
    SetQuantityAtUnique(items, i, q);
  }

  lemma AddRaises(items: seq<CartItem>, i: nat, line: CartItem)
    requires DistinctIds(items) && i < |items| && items[i] == line
    ensures AddLine(items, line.product) == items[i := line.(quantity := line.quantity + 1)]
  {
    FindIndexAtUnique(items, i);
    AddLineRaises(items, line.product, i);
  }

  /** ADD_ITEM for the id of line i, when `findIndex` finds line i, raises that line. */
  lemma AddLineRaises(items: seq<CartItem>, p: Product, i: nat)
    requires i < |items| && FindIndex(items, p.id) == i
    ensures AddLine(items, p) == items[i := items[i].(quantity := items[i].quantity + 1)]
  {
    var r, raised := AddLine(items, p), items[i := items[i].(quantity := items[i].quantity + 1)];
    assert |r| == |raised|;
    forall k | 0 <= k < |r|
      ensures r[k] == raised[k]
    {
    }
  }

  /** On a cart whose quantities are positive, UPDATE_QUANTITY to a value <= 0 is REMOVE_ITEM. */
  lemma {:induction false} UpdateNonPositiveRemoves(items: seq<CartItem>, id: int, q: int)
    requires AllPositive(items) && q <= 0
    ensures UpdateLines(items, id, q) == RemoveLines(items, id)
  {
    if items != [] {
      assert AllPositive(items[1..]) by {
        assert forall k :: 0 <= k < |items| - 1 ==> items[1..][k] == items[k + 1];
      }
      UpdateNonPositiveRemoves(items[1..], id, q);
      UpdateNonPositiveStep(items, id, q);
    }
  }

  /** The step of the induction: the first line is dropped by both, or kept by both. */
  lemma UpdateNonPositiveStep(items: seq<CartItem>, id: int, q: int)
    requires items != [] && items[0].quantity > 0 && q <= 0
    requires UpdateLines(items[1..], id, q) == RemoveLines(items[1..], id)
    ensures UpdateLines(items, id, q) == RemoveLines(items, id)
  {
    var mapped := SetQuantity(items, id, q);
    assert mapped == [mapped[0]] + SetQuantity(items[1..], id, q);
    assert items == [items[0]] + items[1..];
  }

  lemma {:induction false} FilterKeepsDistinct(items: seq<CartItem>, keep: CartItem -> bool)
    requires DistinctIds(items)
    ensures DistinctIds(Seqs.Filter(items, keep))
  {
    if items != [] {
      var head, tail := items[0], items[1..];
      var rest := Seqs.Filter(tail, keep);
      assert DistinctIds(tail) by {
        assert forall k :: 0 <= k < |tail| ==> tail[k] == items[k + 1];
      }
      FilterKeepsDistinct(tail, keep);
      if keep(head) {
        forall k | 0 <= k < |rest|
          ensures rest[k].Id() != head.Id()
        {
          assert rest[k] in tail;
          var j :| 0 <= j < |tail| && tail[j] == rest[k];
          assert items[j + 1] == rest[k];
        }
        assert Seqs.Filter(items, keep) == [head] + rest;
      } else {
        assert Seqs.Filter(items, keep) == rest;
      }
    }
  }

  /**
   * The cart invariant is preserved by every action of the reducer (LOAD_CART
   * only when what it loads satisfies it). ADD_ITEM performs no stock check.
   */
  lemma ReducePreservesValid(s: CartState, a: Action)
    requires Valid(s.items)
    requires a.LoadCart? ==> Valid(a.saved.items)
    ensures Valid(Reduce(s, a).items)
  {
    match a
    case AddItem(p) => AddKeepsValid(s.items, p);
    case RemoveItem(id) => RemoveKeepsValid(s.items, id);
    case UpdateQuantity(id, q) => UpdateKeepsValid(s.items, id, q);
    case SetCustomer(_) =>
    case SetPaymentMethod(_) =>
    case ClearCart =>
    case LoadCart(_) =>
    case Unknown(_) =>
  }

  lemma AddKeepsValid(items: seq<CartItem>, p: Product)
    requires Valid(items)
    ensures Valid(AddLine(items, p))
  {
    var i := FindIndex(items, p.id);
    if i > -1 {
      AddLineRaises(items, p, i);
    } else {
      AddNewAppends(items, p);
    }
  }

  lemma RemoveKeepsValid(items: seq<CartItem>, id: int)
    requires Valid(items)
    ensures Valid(RemoveLines(items, id))
  {
    FilterKeepsDistinct(items, (l: CartItem) => l.Id() != id);
  }

  lemma UpdateKeepsValid(items: seq<CartItem>, id: int, q: int)
    requires Valid(items)
    ensures Valid(UpdateLines(items, id, q))
  {
    var m := SetQuantity(items, id, q);
    assert DistinctIds(m) by {
      assert forall k :: 0 <= k < |m| ==> m[k].Id() == items[k].Id();
    }
    FilterKeepsDistinct(m, (l: CartItem) => l.quantity > 0);
  }

  /** CLEAR_CART yields the initial state; an unknown action changes nothing. */
  lemma ClearAndUnknown(s: CartState, kind: string)
    ensures Reduce(s, ClearCart) == InitialState
    ensures Reduce(s, Unknown(kind)) == s
  {
  }

  // ---------------------------------------------------------------------------
  // Properties of the totals
  // ---------------------------------------------------------------------------

  /** Both totals are sums over the lines: they split over concatenation and are 0 for no lines. */
  lemma {:induction false} TotalsAppend(a: seq<CartItem>, b: seq<CartItem>)
    ensures TotalItems(a + b) == TotalItems(a) + TotalItems(b)
    ensures TotalPrice(a + b) == TotalPrice(a) + TotalPrice(b)
    ensures TotalItems([]) == 0 && TotalPrice([]) == 0
    decreases |b|
  {
    if b == [] {
      assert a + b == a;
    } else {
      var b' := b[..|b| - 1];
      assert (a + b)[..|a + b| - 1] == a + b';
      assert (a + b)[|a + b| - 1] == b[|b| - 1];
      TotalsAppend(a, b');
    }
  }

  lemma TotalsSingle(l: CartItem)
    ensures TotalItems([l]) == l.quantity
    ensures TotalPrice([l]) == Price.ParsePrice(l.product.price) * l.quantity
  {
    assert [l][..0] == [];
  }

  /** The totals of a sequence with one line singled out. */
  lemma TotalsSplice(pre: seq<CartItem>, l: CartItem, post: seq<CartItem>)
    ensures TotalItems(pre + [l] + post) == TotalItems(pre) + l.quantity + TotalItems(post)
    ensures TotalPrice(pre + [l] + post) ==
      TotalPrice(pre) + Price.ParsePrice(l.product.price) * l.quantity + TotalPrice(post)
  {
    TotalsAppend(pre + [l], post);
    TotalsAppend(pre, [l]);
    TotalsSingle(l);
  }

  lemma RaiseLineTotals(pre: seq<CartItem>, l: CartItem, post: seq<CartItem>)
    ensures TotalItems(pre + [l.(quantity := l.quantity + 1)] + post) == TotalItems(pre + [l] + post) + 1
    ensures TotalPrice(pre + [l.(quantity := l.quantity + 1)] + post) ==
      TotalPrice(pre + [l] + post) + Price.ParsePrice(l.product.price)
  {
    var l' := l.(quantity := l.quantity + 1);
    TotalsSplice(pre, l, post);
    TotalsSplice(pre, l', post);
    Arith.MulSucc(l.quantity, Price.ParsePrice(l.product.price));
  }

  /** Raising the quantity of line i by one raises the count by one and the total by that line's price. */
  lemma RaiseAtTotals(items: seq<CartItem>, i: nat)
    requires i < |items|
    ensures TotalItems(items[i := items[i].(quantity := items[i].quantity + 1)]) == TotalItems(items) + 1
    ensures TotalPrice(items[i := items[i].(quantity := items[i].quantity + 1)]) ==
      TotalPrice(items) + Price.ParsePrice(items[i].product.price)
  {
    var l := items[i];
    var pre, post := items[..i], items[i + 1..];
    assert items == pre + [l] + post;
    assert items[i := l.(quantity := l.quantity + 1)] == pre + [l.(quantity := l.quantity + 1)] + post;
    RaiseLineTotals(pre, l, post);
  }

  /**
   * ADD_ITEM raises the item count by exactly one and the price total by the
   * parsed price of the line that was raised or appended.
   */
  lemma AddLineTotals(items: seq<CartItem>, p: Product)
    ensures TotalItems(AddLine(items, p)) == TotalItems(items) + 1
    ensures TotalPrice(AddLine(items, p)) == TotalPrice(items) +
      Price.ParsePrice(if HasId(items, p.id) then items[FindIndex(items, p.id)].product.price else p.price)
  {
    var i := FindIndex(items, p.id);
    if i > -1 {
      AddLineRaises(items, p, i);
      RaiseAtTotals(items, i);
    } else {
      AddNewAppends(items, p);
      TotalsAppend(items, [CartItem(p, 1)]);
      TotalsSingle(CartItem(p, 1));
    }
  }

  // ---------------------------------------------------------------------------
  // The store: useReducer's current state and the dispatch wrappers
  // ---------------------------------------------------------------------------

  class CartStore {
    var state: CartState

    constructor ()
      ensures state == InitialState
    {
      state := InitialState;
    }

    method Dispatch(a: Action)
      modifies this
      ensures state == Reduce(old(state), a)
    {
      state := Reduce(state, a);
    }

    method AddItem(p: Product)
      modifies this
      ensures state == Reduce(old(state), Action.AddItem(p))
    {
      Dispatch(Action.AddItem(p));
    }

    method RemoveItem(id: int)
      modifies this
      ensures state == Reduce(old(state), Action.RemoveItem(id))
    {
      Dispatch(Action.RemoveItem(id));
    }

    method UpdateQuantity(id: int, quantity: int)
      modifies this
      ensures state == Reduce(old(state), Action.UpdateQuantity(id, quantity))
    {
      Dispatch(Action.UpdateQuantity(id, quantity));
    }

    method SetCustomer(c: Option<Customer>)
      modifies this
      ensures state == Reduce(old(state), Action.SetCustomer(c))
    {
      Dispatch(Action.SetCustomer(c));
    }

    method SetPaymentMethod(m: string)
      modifies this
      ensures state == Reduce(old(state), Action.SetPaymentMethod(m))
    {
      Dispatch(Action.SetPaymentMethod(m));
    }

    method ClearCart()
      modifies this
      ensures state == InitialState
    {
      Dispatch(Action.ClearCart);
    }

    /** The mount effect: a cart found in storage is loaded wholesale; nothing found changes nothing. */
    method Restore(saved: Option<CartState>)
      modifies this
      ensures saved.Some? ==> state == saved.value
      ensures saved.None? ==> state == old(state)
    {
      if saved.Some? {
        Dispatch(LoadCart(saved.value));
      }
    }
  }
}
