/**
 * The online payment dialog of src/components/XenditPayment.jsx: the amounts
 * it derives from the cart, the invoice request and the pending transaction
 * record it builds, and the loading / error / link state that `handlePayment`
 * steps through. The invoice service and the database insert are outside the
 * model: their outcomes are parameters.
 */
module Xendit {
  import opened Model
  import Tax
  import Cart
  import Receipt

  /** The outcome of an awaited call: a value, or the message of the error it threw. */
  datatype Result<T> = Ok(value: T) | Err(message: string)

  /** The fields of an invoice the dialog reads. */
  datatype Invoice = Invoice(id: string, invoiceUrl: string)

  /** The subtotal, rate, tax and total the dialog shows and charges. */
  datatype Amounts = Amounts(subtotal: int, taxRate: real, tax: real, total: real)

  /** `transactionData`, handed to the invoice service. */
  datatype InvoiceRequest = InvoiceRequest(
    items: seq<CartItem>,
    subtotal: int,
    tax: real,
    total: real,
    paymentMethod: string,
    customer: Option<Customer>)

  /** The row saved to the transactions table while the invoice is unpaid. */
  datatype PendingRecord = PendingRecord(
    items: seq<CartItem>,
    subtotal: int,
    tax: real,
    total: real,
    paymentMethod: string,
    paymentStatus: string,
    paymentId: string,
    customerId: Option<int>)

  /** What `onSuccess` receives. */
  datatype SuccessReport = SuccessReport(paymentId: Option<string>, paymentMethod: string)

  const XenditMethod := "xendit"
  const PendingStatus := "pending"

  /**
   * The amounts derived from the cart: the subtotal is the cart's
   * `totalPrice`, the tax is the rate's share of it, and the total adds the two.
   */
  function Derive(items: seq<CartItem>, settings: Option<Settings>): (a: Amounts)
    ensures a.subtotal == Cart.TotalPrice(items)
    ensures a.taxRate == Tax.TaxRate(settings)
    ensures a.tax == (a.subtotal as real * a.taxRate) / 100.0
    ensures a.total == a.subtotal as real + a.tax
    ensures a.total == a.subtotal as real * (1.0 + a.taxRate / 100.0)
    ensures items == [] ==> a.subtotal == 0 && a.tax == 0.0 && a.total == 0.0
  {
    var subtotal := Cart.TotalPrice(items);
    var rate := Tax.TaxRate(settings);
    Amounts(subtotal, rate, Tax.TaxAmount(subtotal as real, rate), Tax.Total(subtotal as real, rate))
  }

  /** `cart.customer?.id || null`: an id of 0 is falsy and is saved as null, like a missing customer. */
  function CustomerId(c: Option<Customer>): (r: Option<int>)
    ensures r.Some? <==> c.Some? && c.value.id != 0
    ensures r.Some? ==> r.value == c.value.id
  {
    match c
    case None => None
    case Some(cust) => if cust.id == 0 then None else Some(cust.id)
  }

  function Request(cart: Cart.CartState, settings: Option<Settings>): (q: InvoiceRequest)
    ensures q.items == cart.items && q.customer == cart.customer && q.paymentMethod == XenditMethod
    ensures q.subtotal == Derive(cart.items, settings).subtotal
    ensures q.tax == Derive(cart.items, settings).tax && q.total == Derive(cart.items, settings).total
  {
    var a := Derive(cart.items, settings);
    InvoiceRequest(cart.items, a.subtotal, a.tax, a.total, XenditMethod, cart.customer)
  }

  function Pending(cart: Cart.CartState, settings: Option<Settings>, invoice: Invoice): (r: PendingRecord)
    ensures r.paymentMethod == XenditMethod && r.paymentStatus == PendingStatus
    ensures r.paymentId == invoice.id && r.customerId == CustomerId(cart.customer)
    ensures r.items == Request(cart, settings).items
    ensures r.subtotal == Request(cart, settings).subtotal
    ensures r.tax == Request(cart, settings).tax && r.total == Request(cart, settings).total
  {
    var a := Derive(cart.items, settings);
    PendingRecord(cart.items, a.subtotal, a.tax, a.total, XenditMethod, PendingStatus, invoice.id, CustomerId(cart.customer))
  }

  // ---------------------------------------------------------------------------
  // Agreement with the receipt and with the checkout page
  // ---------------------------------------------------------------------------

  /**
   * For a cart whose prices both parsers read alike, the dialog's subtotal
   * and total are what the receipt prints for a transaction of the same items.
   */
  lemma ChargeMatchesReceipt(cart: Cart.CartState, settings: Option<Settings>, t: Transaction)
    requires t.items == cart.items
    requires forall k :: 0 <= k < |cart.items| ==> Receipt.AgreeingPrice(cart.items[k].product.price)
    ensures Receipt.Render(t, settings).subtotal == Receipt.Finite(Derive(cart.items, settings).subtotal as real)
    ensures Receipt.Render(t, settings).total == Receipt.Finite(Derive(cart.items, settings).total)
  {
    Receipt.SubtotalIsTotalPrice(t.items);
  }

  /**
   * The checkout page charges `totalPrice`; this dialog charges that plus
   * tax, so for a cart whose subtotal is not 0 the two amounts differ exactly
   * when the rate is not 0 (a rate of 0 needs the text "0" saved by the
   * settings form).
   */
  lemma ChargeExceedsCheckoutTotal(cart: Cart.CartState, settings: Option<Settings>)
    requires Cart.TotalPrice(cart.items) != 0
    ensures Derive(cart.items, settings).subtotal == Cart.TotalPrice(cart.items)
    ensures Derive(cart.items, settings).total != Cart.TotalPrice(cart.items) as real <==>
      Tax.TaxRate(settings) != 0.0
  {
    Tax.TotalIsSubtotalIff(Cart.TotalPrice(cart.items) as real, Tax.TaxRate(settings));
  }

  // ---------------------------------------------------------------------------
  // The dialog's state
  // ---------------------------------------------------------------------------

  class XenditPayment {
    var isLoading: bool
    var error: Option<string>
    var paymentUrl: Option<string>
    var invoiceId: Option<string>

    constructor ()
      ensures !isLoading && error.None? && paymentUrl.None? && invoiceId.None?
      ensures PayButtonEnabled() && !ShowsPayLink()
    {
      isLoading := false;
      error := None;
      paymentUrl := None;
      invoiceId := None;
    }

    /** `if (paymentUrl)`: the pay link replaces the form once a non-empty URL is known. */
    predicate ShowsPayLink()
      reads this
    {
      paymentUrl.Some? && paymentUrl.value != ""
    }

    /** The pay button is disabled while a request is in flight. */
    predicate PayButtonEnabled()
      reads this
    {
      !isLoading
    }

    /**
     * `handlePayment`: raise the loading flag and clear the error, request an
     * invoice, remember its link and id, save the pending record, and lower
     * the loading flag whatever happened. A thrown error's message ends in
     * `error`. `request` is what goes to the invoice service, `saved` the
     * record handed to the database, if one was built.
     */
    method HandlePayment(cart: Cart.CartState, settings: Option<Settings>,
                         created: Result<Invoice>, save: Result<()>)
      returns (request: InvoiceRequest, saved: Option<PendingRecord>)
      modifies this
      ensures request == Request(cart, settings)
      ensures !isLoading && PayButtonEnabled()
      ensures created.Ok? ==> (ShowsPayLink() <==> created.value.invoiceUrl != "")
      ensures created.Err? ==> ShowsPayLink() == old(ShowsPayLink())
      ensures created.Err? ==>
        error == Some(created.message) && saved.None? &&
        paymentUrl == old(paymentUrl) && invoiceId == old(invoiceId)
      ensures created.Ok? ==>
        paymentUrl == Some(created.value.invoiceUrl) && invoiceId == Some(created.value.id) &&
        saved == Some(Pending(cart, settings, created.value)) &&
        error == (if save.Err? then Some(save.message) else None)
    {
      isLoading := true;
      error := None;
      request := Request(cart, settings);
      saved := None;
      match created {
        case Err(message) =>
          error := Some(message);
        case Ok(invoice) =>
          paymentUrl := Some(invoice.invoiceUrl);
          invoiceId := Some(invoice.id);
          var record := Pending(cart, settings, invoice);
          saved := Some(record);
          if save.Err? {
            error := Some(save.message);
          }
      }
      isLoading := false;
    }

    /** `handleSuccess`: report the invoice id and the method, only to a supplied callback. */
    method HandleSuccess(hasCallback: bool) returns (report: Option<SuccessReport>)
      ensures report.Some? <==> hasCallback
      ensures report.Some? ==> report.value == SuccessReport(invoiceId, XenditMethod)
    {
      if hasCallback {
        report := Some(SuccessReport(invoiceId, XenditMethod));
      } else {
        report := None;
      }
    }
  }
}
