/**
 * The aggregates of src/pages/Reports.jsx over the transaction log and the
 * catalog: total revenue, average order, revenue per category, the ten most
 * recent sales and the largest category value that scales the bars.
 */
module Reports {
  import opened Model
  import Seqs
  import Data
  import Arith

  /** The log holds no refund: every recorded total is at least 0. */
  predicate NoRefunds(ts: seq<Transaction>) {
    forall k :: 0 <= k < |ts| ==> ts[k].total >= 0
  }

  /** `transactions.reduce((sum, t) => sum + t.total, 0)`. */
  function TotalRevenue(ts: seq<Transaction>): (r: int)
    ensures NoRefunds(ts) ==> r >= 0
  {
    if ts == [] then 0 else ts[0].total + TotalRevenue(ts[1..])
  }

  /** `totalRevenue / transactions.length`, or 0 for an empty log. */
  function AverageOrder(ts: seq<Transaction>): (r: real)
    ensures |ts| > 0 ==> r * |ts| as real == TotalRevenue(ts) as real
    ensures |ts| == 0 ==> r == 0.0
  {
    if |ts| > 0 then TotalRevenue(ts) as real / |ts| as real else 0.0
  }

  /** `t.items.some(item => item.category === category)`. */
  predicate HasCategory(t: Transaction, category: string) {
    exists k :: 0 <= k < |t.items| && t.items[k].product.category == category
  }

  /**
   * The revenue of the transactions that sold something of the category:
   * part of the total revenue when no sale is a refund.
   */
  function CategoryRevenue(ts: seq<Transaction>, category: string): (r: int)
    ensures NoRefunds(ts) ==> 0 <= r <= TotalRevenue(ts)
  {
    var keep := (t: Transaction) => HasCategory(t, category);
    FilteredRevenueAtMost(ts, keep);
    TotalRevenue(Seqs.Filter(ts, keep))
  }

  /** Without refunds, the revenue of any selection of sales lies between 0 and the total revenue. */
  lemma {:induction false} FilteredRevenueAtMost(ts: seq<Transaction>, keep: Transaction -> bool)
    ensures NoRefunds(ts) ==> 0 <= TotalRevenue(Seqs.Filter(ts, keep)) <= TotalRevenue(ts)
  {
    if ts != [] && NoRefunds(ts) {
      var head, tail := ts[0], ts[1..];
      assert NoRefunds(tail) by {
        assert forall k :: 0 <= k < |tail| ==> tail[k] == ts[k + 1];
      }
      FilteredRevenueAtMost(tail, keep);
      var rest := Seqs.Filter(tail, keep);
      if keep(head) {
        assert Seqs.Filter(ts, keep) == [head] + rest;
        RevenueAfterAdd(head, rest);
      } else {
        assert Seqs.Filter(ts, keep) == rest;
      }
    }
  }

  /** How many catalog entries carry the category. */
  function CountCategory(ps: seq<Product>, category: string): nat {
    if ps == [] then 0
    else CountCategory(ps[..|ps| - 1], category) + (if ps[|ps| - 1].category == category then 1 else 0)
  }

  predicate InCatalog(ps: seq<Product>, category: string) {
    exists k :: 0 <= k < |ps| && ps[k].category == category
  }

  /**
   * `salesByCategory` as written: a reduce over the products that adds the
   * category's revenue once per product, so a category with n products gets
   * n times its revenue.
   */
  function SalesByCategory(ps: seq<Product>, ts: seq<Transaction>): (m: map<string, int>)
    ensures forall c :: c in m <==> InCatalog(ps, c)
  {
    if ps == [] then map[]
    else
      var acc := SalesByCategory(ps[..|ps| - 1], ts);
      var c := ps[|ps| - 1].category;
      InCatalogSnoc(ps);
      acc[c := (if c in acc then acc[c] else 0) + CategoryRevenue(ts, c)]
  }

  /** Each value of `salesByCategory` is the category's product count times its revenue. */
  lemma {:induction false} SalesByCategorySpec(ps: seq<Product>, ts: seq<Transaction>)
    ensures forall c :: c in SalesByCategory(ps, ts) ==>
      SalesByCategory(ps, ts)[c] == CountCategory(ps, c) * CategoryRevenue(ts, c)
  {
    if ps != [] {
      var m, front := SalesByCategory(ps, ts), ps[..|ps| - 1];
      SalesByCategorySpec(front, ts);
      forall d | d in m
        ensures m[d] == CountCategory(ps, d) * CategoryRevenue(ts, d)
      {
        SalesByCategoryAt(ps, ts, d);
      }
    }
  }

  /** The step of the induction: the value of one category after the catalog's last entry. */
  lemma SalesByCategoryAt(ps: seq<Product>, ts: seq<Transaction>, d: string)
    requires ps != [] && d in SalesByCategory(ps, ts)
    requires d in SalesByCategory(ps[..|ps| - 1], ts) ==>
      SalesByCategory(ps[..|ps| - 1], ts)[d] == CountCategory(ps[..|ps| - 1], d) * CategoryRevenue(ts, d)
    ensures SalesByCategory(ps, ts)[d] == CountCategory(ps, d) * CategoryRevenue(ts, d)
  {
    if d == ps[|ps| - 1].category {
      SalesOfLastCategory(ps, ts);
    } else {
      assert CountCategory(ps, d) == CountCategory(ps[..|ps| - 1], d);
    }
  }

  /** The last entry's category gains its revenue once more. */
  lemma SalesOfLastCategory(ps: seq<Product>, ts: seq<Transaction>)
    requires ps != []
    requires var front, c := ps[..|ps| - 1], ps[|ps| - 1].category;
      c in SalesByCategory(front, ts) ==>
        SalesByCategory(front, ts)[c] == CountCategory(front, c) * CategoryRevenue(ts, c)
    ensures var c := ps[|ps| - 1].category;
      c in SalesByCategory(ps, ts) &&
      SalesByCategory(ps, ts)[c] == CountCategory(ps, c) * CategoryRevenue(ts, c)
  {
    var front, c := ps[..|ps| - 1], ps[|ps| - 1].category;
    var acc := SalesByCategory(front, ts);
    var n, r := CountCategory(front, c), CategoryRevenue(ts, c);
    var previous := if c in acc then acc[c] else 0;
    assert previous == n * r by {
      if c !in acc {
        UncountedOutsideCatalog(front, c);
      }
    }
    assert SalesByCategory(ps, ts)[c] == previous + r;
    assert CountCategory(ps, c) == n + 1;
    OneMoreProduct(previous, n, r);
  }

  /** One more product of a category adds its revenue once more. */
  lemma OneMoreProduct(previous: int, n: nat, revenue: int)
    requires previous == n * revenue
    ensures previous + revenue == (n + 1) * revenue
  {
    Arith.MulSucc(n, revenue);
  }

  /** The categories of a catalog are those of all but its last entry, and the last entry's. */
  lemma InCatalogSnoc(ps: seq<Product>)
    requires ps != []
    ensures forall d :: InCatalog(ps, d) <==> InCatalog(ps[..|ps| - 1], d) || d == ps[|ps| - 1].category
  {
    var front := ps[..|ps| - 1];
    forall d | InCatalog(ps, d) && d != ps[|ps| - 1].category
      ensures InCatalog(front, d)
    {
      var k :| 0 <= k < |ps| && ps[k].category == d;
      assert front[k] == ps[k];
    }
    forall d | InCatalog(front, d)
      ensures InCatalog(ps, d)
    {
      var k :| 0 <= k < |front| && front[k].category == d;
      assert ps[k] == front[k];
    }
  }

  lemma UncountedOutsideCatalog(ps: seq<Product>, category: string)
    requires !InCatalog(ps, category)
    ensures CountCategory(ps, category) == 0
  {
    if CountCategory(ps, category) != 0 {
      CountedIsInCatalog(ps, category);
    }
  }

  lemma {:induction false} CountedIsInCatalog(ps: seq<Product>, category: string)
    requires CountCategory(ps, category) != 0
    ensures InCatalog(ps, category)
  {
    var front := ps[..|ps| - 1];
    if ps[|ps| - 1].category != category {
      CountedIsInCatalog(front, category);
      var k :| 0 <= k < |front| && front[k].category == category;
      assert ps[k] == front[k];
    }
  }

  /** The evidently intended `salesByCategory`: each category of the catalog mapped to its revenue once. */
  function SalesByCategoryIntended(ps: seq<Product>, ts: seq<Transaction>): (m: map<string, int>)
    ensures forall c :: c in m <==> InCatalog(ps, c)
    ensures forall c :: c in m ==> m[c] == CategoryRevenue(ts, c)
  {
    if ps == [] then map[]
    else
      var front := ps[..|ps| - 1];
      var c := ps[|ps| - 1].category;
      InCatalogSnoc(ps);
      SalesByCategoryIntended(front, ts)[c := CategoryRevenue(ts, c)]
  }

  /** The written version scales each category's value by the number of catalog entries in it. */
  lemma SalesByCategoryOvercounts(ps: seq<Product>, ts: seq<Transaction>, c: string)
    requires InCatalog(ps, c)
    ensures c in SalesByCategory(ps, ts) && c in SalesByCategoryIntended(ps, ts)
    ensures SalesByCategory(ps, ts)[c] == CountCategory(ps, c) * SalesByCategoryIntended(ps, ts)[c]
  {
    SalesByCategorySpec(ps, ts);
  }

  /** The initial catalog has two coffees, Cappuccino and Americano. */
  lemma TwoCoffees()
    ensures CountCategory(Data.InitialProducts, "Coffee") == 2
  {
    var ps := Data.InitialProducts;
    assert ps[..1][..0] == [];
    assert CountCategory(ps[..1], "Coffee") == 1;
    assert ps[..2][..1] == ps[..1];
    assert CountCategory(ps[..2], "Coffee") == 1;
    assert ps[..3][..2] == ps[..2];
    assert CountCategory(ps[..3], "Coffee") == 1;
    assert ps[..4][..3] == ps[..3];
    assert CountCategory(ps[..4], "Coffee") == 1;
    assert ps[..5][..4] == ps[..4];
    assert CountCategory(ps[..5], "Coffee") == 1;
    assert ps[..6][..5] == ps[..5];
    assert CountCategory(ps[..6], "Coffee") == 2;
    assert ps[..7][..6] == ps[..6];
    assert CountCategory(ps[..7], "Coffee") == 2;
    assert ps[..7] == ps[..|ps| - 1];
  }

  /** A single sale that contains the category is that category's whole revenue. */
  lemma CategoryRevenueOfOneSale(sale: Transaction, category: string)
    requires HasCategory(sale, category)
    ensures CategoryRevenue([sale], category) == sale.total
  {
    Seqs.FilterKeepsAll([sale], (t: Transaction) => HasCategory(t, category));
    assert CategoryRevenue([sale], category) == TotalRevenue([sale]);
    assert [sale][1..] == [];
  }

  /**
   * With the initial catalog, one sale of 25000 containing a coffee is
   * reported as 50000 of coffee; the intended report says 25000.
   */
  lemma CoffeeCountedTwice(t: Transaction)
    requires t.total == 25000 && HasCategory(t, "Coffee")
    ensures "Coffee" in SalesByCategory(Data.InitialProducts, [t]) &&
      SalesByCategory(Data.InitialProducts, [t])["Coffee"] == 50000
    ensures "Coffee" in SalesByCategoryIntended(Data.InitialProducts, [t]) &&
      SalesByCategoryIntended(Data.InitialProducts, [t])["Coffee"] == 25000
  {
    var ps := Data.InitialProducts;
    assert InCatalog(ps, "Coffee") by {
      assert ps[0].category == "Coffee";
    }
    TwoCoffees();
    CategoryRevenueOfOneSale(t, "Coffee");
    SalesByCategoryOvercounts(ps, [t], "Coffee");
  }

  /** `transactions.slice(0, 10)`: the log is newest first, so these are the ten latest sales. */
  function RecentTransactions(ts: seq<Transaction>): (r: seq<Transaction>)
    ensures |r| == if |ts| < 10 then |ts| else 10
    ensures r <= ts
  {
    if |ts| < 10 then ts else ts[..10]
  }

  /** The largest of the values of the categories in `ps`, and 1: `Math.max(...values, 1)`. */
  function MaxOver(m: map<string, int>, ps: seq<Product>): (r: int)
    requires forall k :: 0 <= k < |ps| ==> ps[k].category in m
    ensures r >= 1
    ensures forall k :: 0 <= k < |ps| ==> r >= m[ps[k].category]
    ensures r == 1 || exists k :: 0 <= k < |ps| && r == m[ps[k].category]
  {
    if ps == [] then 1
    else
      var rest := MaxOver(m, ps[1..]);
      assert forall k :: 1 <= k < |ps| ==> ps[k] == ps[1..][k - 1];
      var v := m[ps[0].category];
      if v >= rest then v else rest
  }

  /**
   * `maxCategorySales` for a category map whose keys are the catalog's
   * categories: at least 1, at least every value, and one of them or 1.
   */
  function MaxCategorySales(m: map<string, int>, ps: seq<Product>): (r: int)
    requires forall c :: c in m <==> InCatalog(ps, c)
    ensures r >= 1
    ensures forall c :: c in m ==> r >= m[c]
    ensures r == 1 || exists c :: c in m && r == m[c]
  {
    assert forall k :: 0 <= k < |ps| ==> InCatalog(ps, ps[k].category);
    var r := MaxOver(m, ps);
    assert forall c :: c in m ==> r >= m[c] by {
      forall c | c in m
        ensures r >= m[c]
      {
        assert InCatalog(ps, c);
        var k :| 0 <= k < |ps| && ps[k].category == c;
      }
    }
    assert r != 1 ==> exists c :: c in m && r == m[c] by {
      if r != 1 {
        var k :| 0 <= k < |ps| && r == m[ps[k].category];
        assert ps[k].category in m;
      }
    }
    r
  }

  /**
   * The figures the page shows, with the category map as written; beside
   * them, the intended category map, which the page does not show.
   */
  datatype ReportView = ReportView(
    totalRevenue: int,
    averageOrder: real,
    salesByCategory: map<string, int>,
    recent: seq<Transaction>,
    maxCategorySales: int,
    intendedSalesByCategory: map<string, int>)

  function Report(ps: seq<Product>, ts: seq<Transaction>): (r: ReportView)
    ensures r.totalRevenue == TotalRevenue(ts) && r.averageOrder == AverageOrder(ts)
    ensures r.salesByCategory == SalesByCategory(ps, ts)
    ensures r.recent == RecentTransactions(ts)
    ensures r.maxCategorySales >= 1
    ensures forall c :: c in r.salesByCategory ==> r.maxCategorySales >= r.salesByCategory[c]
    ensures r.maxCategorySales == 1 || exists c :: c in r.salesByCategory && r.maxCategorySales == r.salesByCategory[c]
    ensures r.intendedSalesByCategory == SalesByCategoryIntended(ps, ts)
    ensures forall c :: c in r.salesByCategory <==> c in r.intendedSalesByCategory
    ensures forall c :: c in r.salesByCategory ==>
      r.salesByCategory[c] == CountCategory(ps, c) * r.intendedSalesByCategory[c]
  {
    var m := SalesByCategory(ps, ts);
    SalesByCategorySpec(ps, ts);
    ReportView(TotalRevenue(ts), AverageOrder(ts), m, RecentTransactions(ts), MaxCategorySales(m, ps),
      SalesByCategoryIntended(ps, ts))
  }

  // ---------------------------------------------------------------------------
  // Properties
  // ---------------------------------------------------------------------------

  lemma {:induction false} RevenueAppend(a: seq<Transaction>, b: seq<Transaction>)
    ensures TotalRevenue(a + b) == TotalRevenue(a) + TotalRevenue(b)
  {
    if a != [] {
      assert (a + b)[1..] == a[1..] + b;
      RevenueAppend(a[1..], b);
    } else {
      assert a + b == b;
    }
  }

  /** Revenue counts every transaction whatever its payment method: it splits into the two groups. */
  lemma {:induction false} RevenueSplitsByMethod(ts: seq<Transaction>, paymentMethod: string)
    ensures TotalRevenue(ts) ==
      TotalRevenue(Seqs.Filter(ts, (t: Transaction) => t.paymentMethod == paymentMethod)) +
      TotalRevenue(Seqs.Filter(ts, (t: Transaction) => t.paymentMethod != paymentMethod))
  {
    if ts != [] {
      var same := (t: Transaction) => t.paymentMethod == paymentMethod;
      var other := (t: Transaction) => t.paymentMethod != paymentMethod;
      RevenueSplitsByMethod(ts[1..], paymentMethod);
      assert Seqs.Filter(ts, same) == (if same(ts[0]) then [ts[0]] else []) + Seqs.Filter(ts[1..], same);
      assert Seqs.Filter(ts, other) == (if other(ts[0]) then [ts[0]] else []) + Seqs.Filter(ts[1..], other);
      RevenueAppend(if same(ts[0]) then [ts[0]] else [], Seqs.Filter(ts[1..], same));
      RevenueAppend(if other(ts[0]) then [ts[0]] else [], Seqs.Filter(ts[1..], other));
      assert TotalRevenue([ts[0]]) == ts[0].total by {
        assert [ts[0]][1..] == [];
      }
    }
  }

  /** A newly recorded sale heads the recent list, followed by the nine previous latest. */
  lemma RecentAfterAdd(t: Transaction, ts: seq<Transaction>)
    ensures RecentTransactions([t] + ts) ==
      [t] + RecentTransactions(ts)[..if |ts| < 9 then |ts| else 9]
  {
    if |ts| >= 9 {
      assert ([t] + ts)[..10] == [t] + ts[..9];
    }
  }

  /** Recording a sale raises the total revenue by exactly its total. */
  lemma RevenueAfterAdd(t: Transaction, ts: seq<Transaction>)
    ensures TotalRevenue([t] + ts) == t.total + TotalRevenue(ts)
  {
    assert ([t] + ts)[1..] == ts;
  }
}
