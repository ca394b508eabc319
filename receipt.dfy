/**
 * The amounts printed by src/components/Receipt.jsx for a recorded
 * transaction: its own price parsing (delete 'R', 'p', whitespace and '.',
 * then parseFloat), the line amounts, the subtotal, tax and total, and the
 * paid and change rows.
 */
module Receipt {
  import opened Model
  import Price
  import Tax
  import Cart

  /** A JavaScript number as the receipt computes it: finite, or NaN when parseFloat finds no number. */
  datatype Num = Finite(v: real) | NaN

  function Plus(a: Num, b: Num): Num {
    if a.Finite? && b.Finite? then Finite(a.v + b.v) else NaN
  }

  /** JavaScript's `\s`: the ECMAScript white space and line terminator characters. */
  predicate IsJsWhitespace(c: char) {
    c == ' ' || c == '\t' || c == '\n' || c == '\U{000B}' || c == '\U{000C}' || c == '\r' ||
    c == '\U{00A0}' || c == '\U{1680}' || ('\U{2000}' <= c <= '\U{200A}') ||
    c == '\U{2028}' || c == '\U{2029}' || c == '\U{202F}' || c == '\U{205F}' ||
    c == '\U{3000}' || c == '\U{FEFF}'
  }

  /** The character class `[Rp\s.]`. */
  predicate IsStripped(c: char) {
    c == 'R' || c == 'p' || c == '.' || IsJsWhitespace(c)
  }

  /** `price.replace(/[Rp\s.]/g, '')`. */
  function Strip(s: string): (r: string)
    ensures |r| <= |s|
    ensures forall k :: 0 <= k < |r| ==> !IsStripped(r[k])
  {
    if s == [] then []
    else (if IsStripped(s[0]) then [] else [s[0]]) + Strip(s[1..])
  }

  /** The longest prefix of `s` made of decimal digits. */
  function LeadingDigits(s: string): (d: string)
    ensures Price.AllDigits(d) && d <= s
    ensures |d| < |s| ==> !Price.IsDigit(s[|d|])
    ensures Price.AllDigits(s) ==> d == s
  {
    if s != [] && Price.IsDigit(s[0]) then [s[0]] + LeadingDigits(s[1..]) else []
  }

  /**
   * `parseFloat` on a string without '.' and without white space: an optional
   * sign, then the leading run of digits, whatever follows them; no digits is NaN.
   */
  function ParseFloat(s: string): (r: Num)
    ensures s == [] ==> r == NaN
    ensures s != [] && !Price.IsDigit(s[0]) && s[0] != '-' && s[0] != '+' ==> r == NaN
    ensures s != [] && Price.AllDigits(s) ==> r == Finite(Price.DecimalValue(s) as real)
    ensures s != [] && Price.IsDigit(s[0]) ==> r == Finite(Price.DecimalValue(LeadingDigits(s)) as real)
    ensures s != [] && Price.IsDigit(s[0]) ==> r.Finite? && r.v >= 0.0
    ensures s != [] && (s[0] == '-' || s[0] == '+') ==> (r == NaN <==> LeadingDigits(s[1..]) == [])
    ensures s != [] && s[0] == '-' && LeadingDigits(s[1..]) != [] ==>
      r == Finite(-(Price.DecimalValue(LeadingDigits(s[1..])) as real))
    ensures s != [] && s[0] == '+' && LeadingDigits(s[1..]) != [] ==>
      r == Finite(Price.DecimalValue(LeadingDigits(s[1..])) as real)
  {
    if s != [] && (s[0] == '-' || s[0] == '+') then
      var d := LeadingDigits(s[1..]);
      if d == [] then NaN
      else
        var v := Price.DecimalValue(d) as real;
        Finite(if s[0] == '-' then -v else v)
    else
      var d := LeadingDigits(s);
      if d == [] then NaN else Finite(Price.DecimalValue(d) as real)
  }

  /** The receipt's unit price: numbers are used as they are, strings are stripped and parsed. */
  function UnitPrice(p: PriceValue): (r: Num)
    ensures p.Amount? ==> r == Finite(p.n as real)
    ensures p.Text? && Strip(p.s) == [] ==> r == NaN
  {
    match p
    case Amount(n) => Finite(n as real)
    case Text(s) => ParseFloat(Strip(s))
  }

  /** `v * q`: a unit price times a quantity. */
  function Scaled(v: real, q: int): real {
    v * q as real
  }

  /** The amount printed on a line: unit price times quantity; NaN stays NaN. */
  function LineAmount(item: CartItem): (r: Num)
    ensures r.NaN? <==> UnitPrice(item.product.price).NaN?
    ensures UnitPrice(item.product.price).Finite? ==>
      r == Finite(Scaled(UnitPrice(item.product.price).v, item.quantity))
  {
    match UnitPrice(item.product.price)
    case Finite(v) => Finite(Scaled(v, item.quantity))
    case NaN => NaN
  }

  /** `calculateSubtotal`: the reduce over the items. */
  function Subtotal(items: seq<CartItem>): (r: Num)
    ensures items == [] ==> r == Finite(0.0)
    ensures (forall k :: 0 <= k < |items| ==> LineAmount(items[k]).Finite? && LineAmount(items[k]).v >= 0.0) ==>
      r.Finite? && r.v >= 0.0
  {
    if items == [] then Finite(0.0)
    else
      var last := items[|items| - 1];
      assert forall k :: 0 <= k < |items| - 1 ==> items[..|items| - 1][k] == items[k];
      Plus(Subtotal(items[..|items| - 1]), LineAmount(last))
  }

  function SumNums(xs: seq<Num>): Num {
    if xs == [] then Finite(0.0) else Plus(SumNums(xs[..|xs| - 1]), xs[|xs| - 1])
  }

  /** What the receipt shows, as numbers (formatting is left out). */
  datatype ReceiptView = ReceiptView(
    lines: seq<Num>,
    subtotal: Num,
    taxRate: real,
    taxAmount: Num,
    total: Num,
    paid: Num,
    change: int)

  function Render(t: Transaction, settings: Option<Settings>): (r: ReceiptView)
    ensures |r.lines| == |t.items|
    ensures forall k :: 0 <= k < |t.items| ==> r.lines[k] == LineAmount(t.items[k])
    ensures r.subtotal == Subtotal(t.items)
    ensures r.taxRate == Tax.TaxRate(settings)
    ensures r.taxAmount == (if r.subtotal.Finite? then Finite(Tax.TaxAmount(r.subtotal.v, r.taxRate)) else NaN)
    ensures r.total == Plus(r.subtotal, r.taxAmount)
    ensures r.paid == r.total && r.change == 0
    ensures r.subtotal.Finite? <==> r.total.Finite?
    ensures r.subtotal.Finite? ==> r.total == Finite(Tax.Total(r.subtotal.v, r.taxRate))
  {
    var subtotal := Subtotal(t.items);
    var rate := Tax.TaxRate(settings);
    var tax := if subtotal.Finite? then Finite(Tax.TaxAmount(subtotal.v, rate)) else NaN;
    var total := Plus(subtotal, tax);
    ReceiptView(
      seq(|t.items|, k requires 0 <= k < |t.items| => LineAmount(t.items[k])),
      subtotal, rate, tax, total, total, 0)
  }

  // ---------------------------------------------------------------------------
  // Properties
  // ---------------------------------------------------------------------------

  /** The printed line amounts add up to the printed subtotal. */
  lemma LinesSumToSubtotal(t: Transaction, settings: Option<Settings>)
    ensures SumNums(Render(t, settings).lines) == Render(t, settings).subtotal
  {
    SubtotalIsSumOfLines(t.items, Render(t, settings).lines);
  }

  lemma {:induction false} SubtotalIsSumOfLines(items: seq<CartItem>, lines: seq<Num>)
    requires |lines| == |items|
    requires forall k :: 0 <= k < |items| ==> lines[k] == LineAmount(items[k])
    ensures SumNums(lines) == Subtotal(items)
  {
    if items != [] {
      SubtotalIsSumOfLines(items[..|items| - 1], lines[..|lines| - 1]);
    }
  }

  /** The subtotal is NaN exactly when some line's amount is NaN. */
  lemma {:induction false} SubtotalNaNIff(items: seq<CartItem>)
    ensures Subtotal(items).NaN? <==> exists k :: 0 <= k < |items| && LineAmount(items[k]).NaN?
  {
    if items != [] {
      var front := items[..|items| - 1];
      SubtotalNaNIff(front);
      assert forall k :: 0 <= k < |front| ==> front[k] == items[k];
    }
  }

  /** A string the receipt and `parsePrice` read alike: digits, 'R', 'p', '.' and white space only. */
  predicate ReceiptCompatible(s: string) {
    (exists k :: 0 <= k < |s| && Price.IsDigit(s[k])) &&
    forall k :: 0 <= k < |s| ==> Price.IsDigit(s[k]) || IsStripped(s[k])
  }

  lemma {:induction false} StripIsDigits(s: string)
    requires forall k :: 0 <= k < |s| ==> Price.IsDigit(s[k]) || IsStripped(s[k])
    ensures Strip(s) == Price.Digits(s)
  {
    if s != [] {
      StripIsDigits(s[1..]);
    }
  }

  lemma {:induction false} DigitsNonEmpty(s: string, k: nat)
    requires k < |s| && Price.IsDigit(s[k])
    ensures Price.Digits(s) != []
  {
    if !Price.IsDigit(s[0]) {
      DigitsNonEmpty(s[1..], k - 1);
    }
  }

  /** On strings made of digits and the stripped characters, the receipt parses prices as `parsePrice` does. */
  lemma UnitPriceAgrees(s: string)
    requires ReceiptCompatible(s)
    ensures UnitPrice(Text(s)) == Finite(Price.ParsePrice(Text(s)) as real)
  {
    StripIsDigits(s);
    var k :| 0 <= k < |s| && Price.IsDigit(s[k]);
    DigitsNonEmpty(s, k);
  }

  lemma {:induction false} StripAppend(a: string, b: string)
    ensures Strip(a + b) == Strip(a) + Strip(b)
  {
    if a == [] {
      assert a + b == b;
    } else {
      assert (a + b)[0] == a[0];
      assert (a + b)[1..] == a[1..] + b;
      StripAppend(a[1..], b);
    }
  }

  lemma {:induction false} StripKeeps(s: string)
    requires forall k :: 0 <= k < |s| ==> !IsStripped(s[k])
    ensures Strip(s) == s
  {
    if s != [] {
      StripKeeps(s[1..]);
    }
  }

  lemma {:induction false} StripDrops(s: string)
    requires forall k :: 0 <= k < |s| ==> IsStripped(s[k])
    ensures Strip(s) == []
  {
    if s != [] {
      StripDrops(s[1..]);
    }
  }

  /** `parseFloat` reads digits up to the first character that is not one. */
  lemma {:induction false} LeadingDigitsStop(x: string, z: string)
    requires Price.AllDigits(x) && (z == [] || !Price.IsDigit(z[0]))
    ensures LeadingDigits(x + z) == x
  {
    if x == [] {
      assert x + z == z;
    } else {
      assert (x + z)[1..] == x[1..] + z;
      LeadingDigitsStop(x[1..], z);
    }
  }

  /** Digits are never deleted by the receipt. */
  lemma DigitsKept(x: string)
    requires Price.AllDigits(x)
    ensures Strip(x) == x
  {
    assert forall k :: 0 <= k < |x| ==> !IsStripped(x[k]) by {
      forall k | 0 <= k < |x| ensures !IsStripped(x[k]) {
        assert Price.IsDigit(x[k]);
      }
    }
    StripKeeps(x);
  }

  lemma StripRupiahComma(x: string, y: string)
    requires Price.AllDigits(x) && Price.AllDigits(y)
    ensures Strip("Rp " + x + "," + y) == x + ("," + y)
  {
    var rp, comma := "Rp ", ",";
    assert Strip(rp + x) == x by {
      StripAppend(rp, x);
      StripDrops(rp);
      DigitsKept(x);
    }
    assert Strip(rp + x + comma) == x + comma by {
      StripAppend(rp + x, comma);
      StripKeeps(comma);
    }
    assert Strip(rp + x + comma + y) == x + comma + y by {
      StripAppend(rp + x + comma, y);
      DigitsKept(y);
    }
  }

  /**
   * A comma as the thousands separator: the receipt reads only the digits
   * before it, while `parsePrice` reads all of them.
   */
  lemma CommaStopsReceipt(x: string, y: string)
    requires Price.AllDigits(x) && x != [] && Price.AllDigits(y)
    ensures UnitPrice(Text("Rp " + x + "," + y)) == Finite(Price.DecimalValue(x) as real)
    ensures Price.ParsePrice(Text("Rp " + x + "," + y)) == Price.DecimalValue(x + y)
  {
    var rp, comma := "Rp ", ",";
    var s := Strip(rp + x + comma + y);
    StripRupiahComma(x, y);
    LeadingDigitsStop(x, comma + y);
    assert s[0] == x[0];
    assert ParseFloat(s) == Finite(Price.DecimalValue(x) as real);
    Price.DigitsOfGrouped(rp, x, comma, y);
  }

  /**
   * A currency code in place of "Rp": its letters other than 'R' are kept,
   * so the receipt's `parseFloat` sees a letter first and yields NaN, while
   * `parsePrice` still reads the digits.
   */
  lemma CurrencyCodeIsNaN(x: string, y: string)
    requires Price.AllDigits(x) && Price.AllDigits(y)
    ensures UnitPrice(Text("IDR " + x + "." + y)) == NaN
    ensures Price.ParsePrice(Text("IDR " + x + "." + y)) == Price.DecimalValue(x + y)
  {
    var id, rest := "ID", "R " + x + "." + y;
    assert id + rest == "IDR " + x + "." + y;
    StripAppend(id, rest);
    StripKeeps(id);
    Price.DigitsOfGrouped("IDR ", x, ".", y);
  }

  /** A price field the receipt reads exactly as `parsePrice` does. */
  predicate AgreeingPrice(p: PriceValue) {
    p.Amount? || ReceiptCompatible(p.s)
  }

  lemma CastProduct(a: int, b: int)
    ensures (a * b) as real == a as real * b as real
  {
  }

  /** A line with an agreeing price is printed at the amount `totalPrice` adds for it. */
  lemma LineAgrees(item: CartItem)
    requires AgreeingPrice(item.product.price)
    ensures LineAmount(item) == Finite((Price.ParsePrice(item.product.price) * item.quantity) as real)
  {
    var v, q := Price.ParsePrice(item.product.price), item.quantity;
    assert UnitPrice(item.product.price) == Finite(v as real) by {
      if item.product.price.Text? {
        UnitPriceAgrees(item.product.price.s);
      }
    }
    CastProduct(v, q);
  }

  /** When every price agrees, the receipt's subtotal is the cart's `totalPrice`. */
  lemma {:induction false} SubtotalIsTotalPrice(items: seq<CartItem>)
    requires forall k :: 0 <= k < |items| ==> AgreeingPrice(items[k].product.price)
    ensures Subtotal(items) == Finite(Cart.TotalPrice(items) as real)
  {
    if items != [] {
      var front, last := items[..|items| - 1], items[|items| - 1];
      assert forall k :: 0 <= k < |front| ==> front[k] == items[k];
      SubtotalIsTotalPrice(front);
      LineAgrees(last);
    }
  }

  /**
   * The checkout page records `totalPrice` as the transaction's total, so for
   * a recorded sale with agreeing prices the receipt prints that total plus
   * tax: for a total that is not 0, a different amount exactly when the rate
   * is not 0.
   */
  lemma ReceiptTotalAddsTaxToRecordedTotal(t: Transaction, settings: Option<Settings>)
    requires t.total == Cart.TotalPrice(t.items)
    requires forall k :: 0 <= k < |t.items| ==> AgreeingPrice(t.items[k].product.price)
    ensures Render(t, settings).subtotal == Finite(t.total as real)
    ensures Render(t, settings).total == Finite(Tax.Total(t.total as real, Tax.TaxRate(settings)))
    ensures t.total != 0 ==> (Render(t, settings).total != Finite(t.total as real) <==> Tax.TaxRate(settings) != 0.0)
  {
    SubtotalIsTotalPrice(t.items);
    TaxedRecordedTotal(t, settings);
  }

  /** A receipt whose subtotal is the recorded total prints that total plus its tax. */
  lemma TaxedRecordedTotal(t: Transaction, settings: Option<Settings>)
    requires Subtotal(t.items) == Finite(t.total as real)
    ensures Render(t, settings).subtotal == Finite(t.total as real)
    ensures Render(t, settings).total == Finite(Tax.Total(t.total as real, Tax.TaxRate(settings)))
    ensures t.total != 0 ==> (Render(t, settings).total != Finite(t.total as real) <==> Tax.TaxRate(settings) != 0.0)
  {
    var r, x, rate := Render(t, settings), t.total as real, Tax.TaxRate(settings);
    assert r.total == Finite(Tax.Total(x, rate)) by {
      assert r.taxAmount == Finite(Tax.TaxAmount(x, rate));
    }
    if t.total != 0 {
      TaxedDiffers(x, rate);
    }
  }

  lemma TaxedDiffers(x: real, rate: real)
    requires x != 0.0
    ensures Finite(Tax.Total(x, rate)) != Finite(x) <==> rate != 0.0
  {
    Tax.TotalIsSubtotalIff(x, rate);
  }
}
