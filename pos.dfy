/**
 * The point-of-sale page of src/pages/POS.jsx: the product grid filtered by
 * category and search term, the checkout button and payment dialog, the
 * recording of a sale, and the buttons that edit cart lines. The page's own
 * state is a class; the cart and the data lists are the stores it is wired to.
 */
module Pos {
  import opened Model
  import Seqs
  import Cart
  import Data

  /** The category buttons, in the order shown. */
  const Categories: seq<string> := ["All", "Coffee", "Pastry", "Drinks", "Food", "Dessert"]

  const AllCategories := "All"

  /** `toLowerCase` on one character, for the letters A to Z. */
  function LowerChar(c: char): (l: char)
    ensures 'A' <= c <= 'Z' ==> l as int == c as int + 32
    ensures !('A' <= c <= 'Z') ==> l == c
    ensures !('A' <= l <= 'Z')
  {
    if 'A' <= c <= 'Z' then (c as int + 32) as char else c
  }

  function Lower(s: string): (r: string)
    ensures |r| == |s|
    ensures forall k :: 0 <= k < |s| ==> r[k] == LowerChar(s[k])
  {
    if s == [] then [] else [LowerChar(s[0])] + Lower(s[1..])
  }

  /** t occurs in s starting at position i. */
  predicate OccursAt(s: string, t: string, i: int) {
    0 <= i && i + |t| <= |s| && s[i..i + |t|] == t
  }

  /**
   * `s.includes(t)`: t starts at the first position of s or somewhere later.
   * The empty term is found in every string, so an empty search hides nothing;
   * a term longer than s is never found.
   */
  predicate Includes(s: string, t: string): (b: bool)
    ensures t == [] ==> b
    ensures |s| < |t| ==> !b
    decreases |s|
  {
    t <= s || (s != [] && Includes(s[1..], t))
  }

  /** `includes` finds exactly the substrings of s. */
  lemma {:induction false} IncludesIff(s: string, t: string)
    ensures Includes(s, t) <==> exists i :: OccursAt(s, t, i)
    decreases |s|
  {
    if t <= s {
      assert OccursAt(s, t, 0);
    } else if s == [] {
      assert forall i :: !OccursAt(s, t, i);
    } else {
      IncludesIff(s[1..], t);
      if exists i :: OccursAt(s, t, i) {
        var i :| OccursAt(s, t, i);
        if i != 0 {
          OccursAtTail(s, t, i);
        }
      }
      if Includes(s[1..], t) {
        var i :| OccursAt(s[1..], t, i);
        OccursInTail(s, t, i);
      }
    }
  }

  lemma OccursAtTail(s: string, t: string, i: int)
    requires s != [] && i >= 1 && OccursAt(s, t, i)
    ensures OccursAt(s[1..], t, i - 1)
  {
    assert s[1..][i - 1..i - 1 + |t|] == s[i..i + |t|];
  }

  lemma OccursInTail(s: string, t: string, i: int)
    requires s != [] && OccursAt(s[1..], t, i)
    ensures OccursAt(s, t, i + 1)
  {
    assert s[i + 1..i + 1 + |t|] == s[1..][i..i + |t|];
  }

  predicate MatchesCategory(p: Product, activeCategory: string) {
    activeCategory == AllCategories || p.category == activeCategory
  }

  predicate MatchesSearch(p: Product, searchTerm: string) {
    Includes(Lower(p.name), Lower(searchTerm))
  }

  predicate Shown(p: Product, activeCategory: string, searchTerm: string) {
    MatchesCategory(p, activeCategory) && MatchesSearch(p, searchTerm)
  }

  /** `filteredProducts`: the products that match both the category and the search term, in catalog order. */
  function FilteredProducts(products: seq<Product>, activeCategory: string, searchTerm: string): (r: seq<Product>)
    ensures forall p :: p in r <==> p in products && Shown(p, activeCategory, searchTerm)
    ensures Seqs.IsSubsequence(r, products)
  {
    var keep := (p: Product) => Shown(p, activeCategory, searchTerm);
    Seqs.FilterIsSubsequence(products, keep);
    Seqs.Filter(products, keep)
  }

  /** With "All" and an empty search term the whole catalog is shown, in order. */
  lemma ShowAll(products: seq<Product>)
    ensures FilteredProducts(products, AllCategories, "") == products
  {
    var keep := (p: Product) => Shown(p, AllCategories, "");
    forall k | 0 <= k < |products|
      ensures keep(products[k])
    {
      assert Lower("") == "";
    }
    Seqs.FilterKeepsAll(products, keep);
  }

  /** A product name matches a search term whatever the letter case of either. */
  lemma SearchIgnoresCase(p: Product, term: string)
    ensures MatchesSearch(p, term) <==> MatchesSearch(p, Lower(term))
  {
    LowerIdempotent(term);
  }

  lemma {:induction false} LowerIdempotent(s: string)
    ensures Lower(Lower(s)) == Lower(s)
  {
    if s != [] {
      LowerIdempotent(s[1..]);
      assert Lower(s)[1..] == Lower(s[1..]);
    }
  }

  /** The checkout button is enabled exactly when the cart has a line. */
  predicate CheckoutEnabled(cart: Cart.CartState) {
    |cart.items| != 0
  }

  /** The draft `confirmPayment` hands to `addTransaction`: the cart's lines, the pre-tax total, the method and customer. */
  function SaleDraft(cart: Cart.CartState, paymentMethod: string, isoDate: string): (d: Data.TransactionDraft)
    ensures d.items == cart.items && d.total == Cart.TotalPrice(cart.items)
    ensures d.paymentMethod == paymentMethod && d.customer == cart.customer && d.date == isoDate
  {
    Data.TransactionDraft(cart.items, Cart.TotalPrice(cart.items), paymentMethod, cart.customer, isoDate)
  }

  // ---------------------------------------------------------------------------
  // The quantity buttons in terms of the reducer
  // ---------------------------------------------------------------------------

  /** The minus button on a line at quantity 1 removes the line. */
  lemma MinusAtOneRemovesLine(s: Cart.CartState, line: CartItem)
    requires Cart.AllPositive(s.items) && line in s.items && line.quantity == 1
    ensures Cart.Reduce(s, Cart.UpdateQuantity(line.Id(), line.quantity - 1)).items ==
      Cart.RemoveLines(s.items, line.Id())
  {
    Cart.UpdateNonPositiveRemoves(s.items, line.Id(), 0);
  }

  /** In a valid cart, the plus button on a line does what clicking its product card does. */
  lemma PlusIsAdd(s: Cart.CartState, line: CartItem)
    requires Cart.Valid(s.items) && line in s.items
    ensures Cart.Reduce(s, Cart.UpdateQuantity(line.Id(), line.quantity + 1)) ==
      Cart.Reduce(s, Cart.AddItem(line.product))
  {
    var i :| 0 <= i < |s.items| && s.items[i] == line;
    Cart.RaiseIsAdd(s.items, i, line);
    SameLinesSameState(s, line);
  }

  lemma SameLinesSameState(s: Cart.CartState, line: CartItem)
    requires Cart.UpdateLines(s.items, line.Id(), line.quantity + 1) == Cart.AddLine(s.items, line.product)
    ensures Cart.Reduce(s, Cart.UpdateQuantity(line.Id(), line.quantity + 1)) ==
      Cart.Reduce(s, Cart.AddItem(line.product))
  {
  }

  /** Clicking a card adds the product even when its stock is 0. */
  lemma AddIgnoresStock(s: Cart.CartState, p: Product)
    ensures Cart.HasId(Cart.Reduce(s, Cart.AddItem(p)).items, p.id)
  {
    var items := s.items;
    var i := Cart.FindIndex(items, p.id);
    if i > -1 {
      assert Cart.AddLine(items, p)[i].Id() == p.id;
    } else {
      assert Cart.AddLine(items, p)[|items|].Id() == p.id;
    }
  }

  // ---------------------------------------------------------------------------
  // The page
  // ---------------------------------------------------------------------------

  class PosPage {
    var activeCategory: string
    var searchTerm: string
    var showPayment: bool
    const cart: Cart.CartStore
    const data: Data.DataStore

    constructor (cart: Cart.CartStore, data: Data.DataStore)
      ensures this.cart == cart && this.data == data
      ensures activeCategory == AllCategories && searchTerm == "" && !showPayment
    {
      this.cart := cart;
      this.data := data;
      activeCategory := AllCategories;
      searchTerm := "";
      showPayment := false;
    }

    /** The products the grid shows. */
    function Visible(): seq<Product>
      reads this, data
    {
      FilteredProducts(data.products, activeCategory, searchTerm)
    }

    method SelectCategory(category: string)
      requires category in Categories
      modifies this
      ensures activeCategory == category && searchTerm == old(searchTerm) && showPayment == old(showPayment)
    {
      activeCategory := category;
    }

    method TypeSearch(term: string)
      modifies this
      ensures searchTerm == term && activeCategory == old(activeCategory) && showPayment == old(showPayment)
    {
      searchTerm := term;
    }

    /** A click on the checkout button opens the dialog, unless the button is disabled by an empty cart. */
    method ClickCheckout()
      modifies this
      ensures showPayment == (old(showPayment) || CheckoutEnabled(cart.state))
      ensures activeCategory == old(activeCategory) && searchTerm == old(searchTerm)
    {
      if CheckoutEnabled(cart.state) {
        showPayment := true;
      }
    }

    method ClosePayment()
      modifies this
      ensures !showPayment
      ensures activeCategory == old(activeCategory) && searchTerm == old(searchTerm)
    {
      showPayment := false;
    }

    /**
     * `confirmPayment(method)`: record the cart as the newest transaction, at
     * the pre-tax total, then empty the cart and close the dialog. Stock and
     * customers are left as they were.
     */
    method ConfirmPayment(paymentMethod: string, now: int, isoDate: string) returns (recorded: Transaction)
      modifies this, cart, data`transactions
      ensures recorded == Data.Stamped(SaleDraft(old(cart.state), paymentMethod, isoDate), now, isoDate)
      ensures recorded.items == old(cart.state.items) && recorded.total == Cart.TotalPrice(old(cart.state.items))
      ensures recorded.customer == old(cart.state.customer) && recorded.paymentMethod == paymentMethod
      ensures data.transactions == [recorded] + old(data.transactions)
      ensures data.products == old(data.products) && data.customers == old(data.customers)
      ensures cart.state == Cart.InitialState
      ensures !showPayment
      ensures activeCategory == old(activeCategory) && searchTerm == old(searchTerm)
    {
      var draft := SaleDraft(cart.state, paymentMethod, isoDate);
      recorded := data.AddTransaction(draft, now, isoDate);
      cart.ClearCart();
      showPayment := false;
    }

    /** A product card adds its product, with no stock check. */
    method ClickProduct(p: Product)
      requires p in Visible()
      modifies cart
      ensures cart.state == Cart.Reduce(old(cart.state), Cart.AddItem(p))
    {
      cart.AddItem(p);
    }

    method ClickMinus(line: CartItem)
      requires line in cart.state.items
      modifies cart
      ensures cart.state == Cart.Reduce(old(cart.state), Cart.UpdateQuantity(line.Id(), line.quantity - 1))
    {
      cart.UpdateQuantity(line.Id(), line.quantity - 1);
    }

    method ClickPlus(line: CartItem)
      requires line in cart.state.items
      modifies cart
      ensures cart.state == Cart.Reduce(old(cart.state), Cart.UpdateQuantity(line.Id(), line.quantity + 1))
    {
      cart.UpdateQuantity(line.Id(), line.quantity + 1);
    }

    method ClickRemove(line: CartItem)
      requires line in cart.state.items
      modifies cart
      ensures cart.state == Cart.Reduce(old(cart.state), Cart.RemoveItem(line.Id()))
    {
      cart.RemoveItem(line.Id());
    }

    /** "Clear All" is only on screen while the cart has lines. */
    method ClickClearAll()
      requires |cart.state.items| > 0
      modifies cart
      ensures cart.state == Cart.InitialState
    {
      cart.ClearCart();
    }
  }
}
