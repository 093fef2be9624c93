/**
 Job costing (internal/services/jobcosting.go): goods issued to a deal are valued at the weighted
 average of what came in.
 */
module JobCosting {
  import opened Common
  import opened Stock

  datatype Expense = Expense(net: real, vat: real, reclaimableVat: real)

  datatype DealCosting = DealCosting(dealValue: real, costOfGoods: real, directExpenses: real,
                                     irrecoverableVat: real, totalCost: real, margin: real,
                                     marginPercent: real, goodsAtCostUnknown: int)

  predicate Inbound(m: Movement) {
    0 < m.quantity && (m.kind == Opening || m.kind == Receipt || m.kind == Return)
  }

  function InQty(ms: seq<Movement>, p: ProductId): int {
    if ms == [] then 0
    else
      var m := ms[|ms| - 1];
      InQty(ms[..|ms| - 1], p) + (if Inbound(m) && m.product == p then m.quantity else 0)
  }

  function InValue(ms: seq<Movement>, p: ProductId): real {
    if ms == [] then 0.0
    else
      var m := ms[|ms| - 1];
      InValue(ms[..|ms| - 1], p)
      + (if Inbound(m) && m.product == p then m.quantity as real * m.unitCost else 0.0)
  }

  /** weightedAverageCost for one product; unknown when nothing priced came in. */
  function AverageCost(ms: seq<Movement>, p: ProductId): Option<real> {
    if 0 < InQty(ms, p) && 0.0 < InValue(ms, p) then Some(InValue(ms, p) / InQty(ms, p) as real) else None
  }

  predicate IssuedTo(m: Movement, deal: nat) {
    m.deal == Some(deal) && m.quantity < 0
  }

  /** The rows a deal consumed. */
  function Issued(ms: seq<Movement>, deal: nat): seq<Movement> {
    if ms == [] then []
    else Issued(ms[..|ms| - 1], deal)
         + (if IssuedTo(ms[|ms| - 1], deal) then [ms[|ms| - 1]] else [])
  }

  /** Units of p the first rows of `ms` issued to a deal. */
  function UnitsTo(ms: seq<Movement>, deal: nat, p: ProductId): int {
    if ms == [] then 0
    else
      var m := ms[|ms| - 1];
      UnitsTo(ms[..|ms| - 1], deal, p) + (if IssuedTo(m, deal) && m.product == p then -m.quantity else 0)
  }

  /** What a number of units is worth at an average cost; nothing when the cost is unknown. */
  function At(units: int, average: Option<real>): real {
    match average
    case None => 0.0
    case Some(c) => units as real * c
  }

  /** Value of `rows` at the average costs of the whole ledger; rows of unknown cost are left out. */
  function Valued(ledger: seq<Movement>, rows: seq<Movement>): real {
    if rows == [] then 0.0
    else
      var m := rows[|rows| - 1];
      Valued(ledger, rows[..|rows| - 1])
      + At(-m.quantity, AverageCost(ledger, m.product))
  }

  function UnknownUnits(ledger: seq<Movement>, rows: seq<Movement>): int {
    if rows == [] then 0
    else
      var m := rows[|rows| - 1];
      UnknownUnits(ledger, rows[..|rows| - 1])
      + (if AverageCost(ledger, m.product).None? then -m.quantity else 0)
  }

  function Nets(es: seq<Expense>): seq<real> {
    seq(|es|, i requires 0 <= i < |es| => es[i].net)
  }

  function Lost(es: seq<Expense>): seq<real> {
    seq(|es|, i requires 0 <= i < |es| => es[i].vat - es[i].reclaimableVat)
  }

  /** CostDeal on the movement and expense rows the database holds. */
  method CostDeal(ledger: seq<Movement>, deal: nat, dealValue: real, expenses: seq<Expense>)
    returns (out: DealCosting)
    ensures out.dealValue == dealValue
    ensures out.costOfGoods == Valued(ledger, Issued(ledger, deal))
    ensures out.goodsAtCostUnknown == UnknownUnits(ledger, Issued(ledger, deal))
    ensures out.directExpenses == SumR(Nets(expenses)) && out.irrecoverableVat == SumR(Lost(expenses))
    ensures out.totalCost == out.costOfGoods + out.directExpenses + out.irrecoverableVat
    ensures out.margin + out.totalCost == dealValue
    ensures if dealValue == 0.0 then out.marginPercent == 0.0
            else out.marginPercent * dealValue == out.margin * 100.0
  {
    var costOfGoods, unknown := CostGoods(ledger, deal);
    var direct, vat := CostExpenses(expenses);
    var total := costOfGoods + direct + vat;
    var margin := dealValue - total;
    var percent := 0.0;
    if dealValue != 0.0 {
      PerCent(margin, dealValue);
      percent := margin / dealValue * 100.0;
    }
    out := DealCosting(dealValue, costOfGoods, direct, vat, total, margin, percent, unknown);
  }

  lemma PerCent(margin: real, value: real)
    requires value != 0.0
    ensures margin / value * 100.0 * value == margin * 100.0
  {
    var part := margin / value;
    assert part * value == margin;
    assert part * 100.0 * value == part * value * 100.0;
  }

  /** The products of the rows, each once. */
  method ProductsOf(issued: seq<Movement>) returns (productIds: seq<ProductId>)
    ensures forall k :: 0 <= k < |issued| ==> issued[k].product in productIds
  {
    var seen: set<ProductId> := {};
    productIds := [];
    var i := 0;
    while i < |issued|
      invariant 0 <= i <= |issued|
      invariant forall k :: 0 <= k < i ==> issued[k].product in seen
      invariant forall p :: p in seen <==> p in productIds
    {
      if issued[i].product !in seen {
        seen := seen + {issued[i].product};
        productIds := productIds + [issued[i].product];
      }
      i := i + 1;
    }
  }

  /** The rows issued to the deal, valued one by one. */
  method CostGoods(ledger: seq<Movement>, deal: nat) returns (costOfGoods: real, unknown: int)
    ensures costOfGoods == Valued(ledger, Issued(ledger, deal))
    ensures unknown == UnknownUnits(ledger, Issued(ledger, deal))
  {
    var issued := Issued(ledger, deal);
    var productIds := ProductsOf(issued);
    var costs := WeightedAverageCost(ledger, productIds);
    costOfGoods, unknown := 0.0, 0;
    var i := 0;
    while i < |issued|
      invariant 0 <= i <= |issued|
      invariant costOfGoods == Valued(ledger, issued[..i]) && unknown == UnknownUnits(ledger, issued[..i])
    {
      var m := issued[i];
      OneRow(ledger, issued[..i], m);
      assert issued[..i + 1] == issued[..i] + [m] && m.product in productIds;
      var units := -m.quantity;
      if m.product !in costs {
        unknown := unknown + units;
      } else {
        assert AverageCost(ledger, m.product) == Some(costs[m.product]);
        costOfGoods := costOfGoods + units as real * costs[m.product];
      }
      i := i + 1;
    }
    assert issued[..i] == issued;
  }

  lemma OneRow(ledger: seq<Movement>, rows: seq<Movement>, m: Movement)
    ensures Valued(ledger, rows + [m]) == Valued(ledger, rows) + At(-m.quantity, AverageCost(ledger, m.product))
    ensures UnknownUnits(ledger, rows + [m]) == UnknownUnits(ledger, rows)
      + (if AverageCost(ledger, m.product).None? then -m.quantity else 0)
  {
    assert (rows + [m])[..|rows|] == rows;
  }

  method CostExpenses(expenses: seq<Expense>) returns (direct: real, vat: real)
    ensures direct == SumR(Nets(expenses)) && vat == SumR(Lost(expenses))
  {
    ghost var nets, lost := Nets(expenses), Lost(expenses);
    direct, vat := 0.0, 0.0;
    var i := 0;
    while i < |expenses|
      invariant 0 <= i <= |expenses|
      invariant direct == SumR(nets[..i]) && vat == SumR(lost[..i])
    {
      assert nets[..i + 1] == nets[..i] + [nets[i]] && lost[..i + 1] == lost[..i] + [lost[i]];
      SumRSnoc(nets[..i], nets[i]);
      SumRSnoc(lost[..i], lost[i]);
      direct := direct + expenses[i].net;
      vat := vat + (expenses[i].vat - expenses[i].reclaimableVat);
      i := i + 1;
    }
    assert nets[..i] == nets && lost[..i] == lost;
  }

  /** The map the costing looks products up in: only those with a known average. */
  method WeightedAverageCost(ledger: seq<Movement>, productIds: seq<ProductId>) returns (out: map<ProductId, real>)
    ensures forall p :: p in out <==> p in productIds && AverageCost(ledger, p).Some?
    ensures forall p :: p in out ==> AverageCost(ledger, p) == Some(out[p])
  {
    out := map[];
    var i := 0;
    while i < |productIds|
      invariant 0 <= i <= |productIds|
      invariant forall p :: p in out <==> p in productIds[..i] && AverageCost(ledger, p).Some?
      invariant forall p :: p in out ==> AverageCost(ledger, p) == Some(out[p])
    {
      var p := productIds[i];
      assert productIds[..i + 1] == productIds[..i] + [p];
      var qty, value := InQty(ledger, p), InValue(ledger, p);
      if qty > 0 && value > 0.0 { out := out[p := value / qty as real]; }
      i := i + 1;
    }
    assert productIds[..i] == productIds;
  }

  // --- Every issued unit is accounted for ------------------------------------------------

  function UnitsIn(rows: seq<Movement>): int {
    if rows == [] then 0 else UnitsIn(rows[..|rows| - 1]) - rows[|rows| - 1].quantity
  }

  function CostedUnits(ledger: seq<Movement>, rows: seq<Movement>): int {
    if rows == [] then 0
    else
      var m := rows[|rows| - 1];
      CostedUnits(ledger, rows[..|rows| - 1])
      + (if AverageCost(ledger, m.product).Some? then -m.quantity else 0)
  }

  /** Units valued and units of unknown cost together are the units issued. */
  lemma {:induction false} UnitsAccounted(ledger: seq<Movement>, rows: seq<Movement>)
    ensures CostedUnits(ledger, rows) + UnknownUnits(ledger, rows) == UnitsIn(rows)
  {
    if rows != [] { UnitsAccounted(ledger, rows[..|rows| - 1]); }
  }

  // --- Cost of sales over all deals --------------------------------------------------------

  /** What the deal's cost of goods includes for one product. */
  function ValuedOn(ledger: seq<Movement>, rows: seq<Movement>, p: ProductId): real {
    if rows == [] then 0.0
    else
      var m := rows[|rows| - 1];
      ValuedOn(ledger, rows[..|rows| - 1], p)
      + (if m.product == p then At(-m.quantity, AverageCost(ledger, p)) else 0.0)
  }

  lemma {:induction false} ValuedIsUnits(ledger: seq<Movement>, ms: seq<Movement>, deal: nat, p: ProductId)
    ensures ValuedOn(ledger, Issued(ms, deal), p) == At(UnitsTo(ms, deal, p), AverageCost(ledger, p))
  {
    if ms != [] {
      var n := |ms| - 1;
      ValuedIsUnits(ledger, ms[..n], deal, p);
      AtAdds(UnitsTo(ms[..n], deal, p), -ms[n].quantity, AverageCost(ledger, p));
      if IssuedTo(ms[n], deal) {
        assert Issued(ms, deal)[..|Issued(ms[..n], deal)|] == Issued(ms[..n], deal);
      } else {
        assert Issued(ms, deal) == Issued(ms[..n], deal);
      }
    } else {
      AtAdds(0, 0, AverageCost(ledger, p));
    }
  }

  lemma AtAdds(a: int, b: int, average: Option<real>)
    ensures At(a + b, average) == At(a, average) + At(b, average)
  {}

  /** Units of p issued to any of the deals listed. */
  function UnitsToAll(ms: seq<Movement>, deals: seq<nat>, p: ProductId): int {
    if deals == [] then 0
    else UnitsToAll(ms, deals[..|deals| - 1], p) + UnitsTo(ms, deals[|deals| - 1], p)
  }

  /** Cost of goods the deals listed carry for p, taken together. */
  function CostToAll(ms: seq<Movement>, deals: seq<nat>, p: ProductId): real {
    if deals == [] then 0.0
    else CostToAll(ms, deals[..|deals| - 1], p) + ValuedOn(ms, Issued(ms, deals[|deals| - 1]), p)
  }

  function OutQty(ms: seq<Movement>, p: ProductId): int {
    if ms == [] then 0
    else
      var m := ms[|ms| - 1];
      OutQty(ms[..|ms| - 1], p) + (if m.quantity < 0 && m.product == p then -m.quantity else 0)
  }

  ghost predicate DistinctDeals(deals: seq<nat>) {
    forall i, j :: 0 <= i < j < |deals| ==> deals[i] != deals[j]
  }

  lemma {:induction false} OneRowMore(ms: seq<Movement>, deals: seq<nat>, p: ProductId)
    requires ms != [] && DistinctDeals(deals)
    ensures var m := ms[|ms| - 1];
            UnitsToAll(ms, deals, p) == UnitsToAll(ms[..|ms| - 1], deals, p)
              + (if m.quantity < 0 && m.product == p && m.deal.Some? && m.deal.value in deals then -m.quantity else 0)
  {
    if deals != [] {
      var n := |deals| - 1;
      OneRowMore(ms, deals[..n], p);
      assert deals == deals[..n] + [deals[n]];
    }
  }

  /** Distinct deals cannot between them have been issued more than left the shelf. */
  lemma {:induction false} DealsWithinOut(ms: seq<Movement>, deals: seq<nat>, p: ProductId)
    requires DistinctDeals(deals)
    ensures 0 <= UnitsToAll(ms, deals, p) <= OutQty(ms, p)
  {
    if ms == [] {
      NoRows(deals, p);
    } else {
      DealsWithinOut(ms[..|ms| - 1], deals, p);
      OneRowMore(ms, deals, p);
    }
  }

  lemma {:induction false} NoRows(deals: seq<nat>, p: ProductId)
    ensures UnitsToAll([], deals, p) == 0
  {
    if deals != [] { NoRows(deals[..|deals| - 1], p); }
  }

  /** Nothing but priced arrivals has raised the balance of p. */
  ghost predicate OnlyArrivals(ms: seq<Movement>, p: ProductId) {
    forall i :: 0 <= i < |ms| && ms[i].product == p && 0 < ms[i].quantity ==> Inbound(ms[i])
  }

  ghost predicate PricedArrivals(ms: seq<Movement>, p: ProductId) {
    forall i :: 0 <= i < |ms| && ms[i].product == p && Inbound(ms[i]) ==> 0.0 <= ms[i].unitCost
  }

  /** Validated movements with no upward stock count raise a balance only by arrivals. */
  lemma ValidatedArrivals(ms: seq<Movement>, p: ProductId)
    requires forall i :: 0 <= i < |ms| ==> Validate(ms[i]) == None
    requires forall i :: 0 <= i < |ms| && ms[i].product == p && ms[i].kind == Adjustment ==> ms[i].quantity < 0
    ensures OnlyArrivals(ms, p)
  {}

  lemma {:induction false} BalanceSplits(ms: seq<Movement>, p: ProductId)
    requires OnlyArrivals(ms, p)
    ensures OnHand(ms, p) == InQty(ms, p) - OutQty(ms, p)
  {
    if ms != [] {
      var n := |ms| - 1;
      forall i | 0 <= i < n && ms[..n][i].product == p && 0 < ms[..n][i].quantity ensures Inbound(ms[..n][i]) {
        assert Inbound(ms[i]);
      }
      BalanceSplits(ms[..n], p);
    }
  }

  lemma {:induction false} ValueNonNegative(ms: seq<Movement>, p: ProductId)
    requires PricedArrivals(ms, p)
    ensures 0.0 <= InValue(ms, p)
  {
    if ms != [] {
      var n := |ms| - 1;
      forall i | 0 <= i < n && ms[..n][i].product == p && Inbound(ms[..n][i]) ensures 0.0 <= ms[..n][i].unitCost {
        assert 0.0 <= ms[i].unitCost;
      }
      ValueNonNegative(ms[..n], p);
      if ms[n].product == p && Inbound(ms[n]) { TimesNonNegative(ms[n].quantity as real, ms[n].unitCost); }
    }
  }

  lemma TimesNonNegative(a: real, b: real)
    requires 0.0 <= a && 0.0 <= b
    ensures 0.0 <= a * b
  {}

  lemma {:induction false} CostIsUnits(ms: seq<Movement>, deals: seq<nat>, p: ProductId)
    ensures CostToAll(ms, deals, p) == At(UnitsToAll(ms, deals, p), AverageCost(ms, p))
  {
    if deals != [] {
      var n := |deals| - 1;
      CostIsUnits(ms, deals[..n], p);
      ValuedIsUnits(ms, ms, deals[n], p);
      AtAdds(UnitsToAll(ms, deals[..n], p), UnitsTo(ms, deals[n], p), AverageCost(ms, p));
    } else {
      AtAdds(0, 0, AverageCost(ms, p));
    }
  }

  lemma Proportion(units: int, qty: int, value: real)
    requires 0 <= units <= qty && 0 < qty && 0.0 < value
    ensures units as real * (value / qty as real) <= value
    ensures units == qty ==> units as real * (value / qty as real) == value
  {
    var c := value / qty as real;
    assert c * qty as real == value;
    TimesNonNegative((qty - units) as real, c);
  }

  /**
   Cost of sales never exceeds what landed: with priced arrivals and no upward stock counts, the
   cost of goods all deals together carry for a product is at most the value it came in at, and
   equal to it once every unit that came in has been issued to deals.
   */
  lemma CostOfSalesConserved(ms: seq<Movement>, deals: seq<nat>, p: ProductId)
    requires Sound(ms) && DistinctDeals(deals) && OnlyArrivals(ms, p) && PricedArrivals(ms, p)
    ensures CostToAll(ms, deals, p) <= InValue(ms, p)
    ensures UnitsToAll(ms, deals, p) == InQty(ms, p) && AverageCost(ms, p).Some? ==>
      CostToAll(ms, deals, p) == InValue(ms, p)
  {
    IssuedWithinArrivals(ms, deals, p);
    ValueNonNegative(ms, p);
    CostIsUnits(ms, deals, p);
    CostWithin(UnitsToAll(ms, deals, p), InQty(ms, p), InValue(ms, p), AverageCost(ms, p));
  }

  lemma IssuedWithinArrivals(ms: seq<Movement>, deals: seq<nat>, p: ProductId)
    requires Sound(ms) && DistinctDeals(deals) && OnlyArrivals(ms, p)
    ensures 0 <= UnitsToAll(ms, deals, p) <= InQty(ms, p)
  {
    SoundNow(ms, p);
    BalanceSplits(ms, p);
    DealsWithinOut(ms, deals, p);
  }

  lemma CostWithin(units: int, qty: int, value: real, average: Option<real>)
    requires 0 <= units <= qty && 0.0 <= value
    requires average == if 0 < qty && 0.0 < value then Some(value / qty as real) else None
    ensures At(units, average) <= value
    ensures units == qty && average.Some? ==> At(units, average) == value
  {
    if average.Some? { Proportion(units, qty, value); }
  }

  // --- What the average is ------------------------------------------------------------------

  /** The units and the money the inbound rows of p bring in, row by row. */
  ghost predicate BroughtIn(ms: seq<Movement>, p: ProductId, units: seq<int>, money: seq<real>) {
    |units| == |ms| == |money|
    && forall i :: 0 <= i < |ms| ==>
      if ms[i].product == p && 0 < ms[i].quantity && ms[i].kind in {"opening", "receipt", "return"}
      then units[i] == ms[i].quantity && money[i] == ms[i].quantity as real * ms[i].unitCost
      else units[i] == 0 && money[i] == 0.0
  }

  lemma {:induction false} BroughtInTotals(ms: seq<Movement>, p: ProductId, units: seq<int>, money: seq<real>)
    requires BroughtIn(ms, p, units, money)
    ensures InQty(ms, p) == Sum(units) && InValue(ms, p) == SumR(money)
  {
    if ms != [] {
      var n := |ms| - 1;
      BroughtInTotals(ms[..n], p, units[..n], money[..n]);
      assert units[n] == if Inbound(ms[n]) && ms[n].product == p then ms[n].quantity else 0;
    }
  }

  /**
   The average is money over units: known exactly if both totals are positive, and then times the
   units it is the money.
   */
  lemma AverageIsMoneyOverUnits(ms: seq<Movement>, p: ProductId, units: seq<int>, money: seq<real>)
    requires BroughtIn(ms, p, units, money)
    ensures AverageCost(ms, p).Some? <==> 0 < Sum(units) && 0.0 < SumR(money)
    ensures AverageCost(ms, p).Some? ==> AverageCost(ms, p).value * Sum(units) as real == SumR(money)
  {
    BroughtInTotals(ms, p, units, money);
  }

  /** Every inbound row of p costs at least lo and at most hi a unit. */
  ghost predicate CostsBetween(ms: seq<Movement>, p: ProductId, lo: real, hi: real) {
    forall i :: 0 <= i < |ms| && ms[i].product == p && Inbound(ms[i]) ==> lo <= ms[i].unitCost <= hi
  }

  /** So many units are worth at least lo and at most hi each. */
  ghost predicate Between(units: int, money: real, lo: real, hi: real) {
    lo * units as real <= money <= hi * units as real
  }

  lemma RowBetween(q: int, c: real, lo: real, hi: real)
    requires 0 <= q && lo <= c <= hi
    ensures Between(q, q as real * c, lo, hi)
  {
    var x := q as real;
    TimesNonNegative(x, c - lo);
    TimesNonNegative(x, hi - c);
    assert x * (c - lo) == x * c - lo * x && x * (hi - c) == hi * x - x * c;
  }

  lemma BetweenAdds(a: int, v: real, b: int, w: real, lo: real, hi: real)
    requires Between(a, v, lo, hi) && Between(b, w, lo, hi)
    ensures Between(a + b, v + w, lo, hi)
  {
    var x, y := a as real, b as real;
    assert (a + b) as real == x + y;
    assert lo * (x + y) == lo * x + lo * y && hi * (x + y) == hi * x + hi * y;
  }

  /** What holds of units and money together, row by row, and survives adding up, holds of the totals. */
  lemma {:induction false} TotalsHave(ms: seq<Movement>, p: ProductId, P: (int, real) -> bool)
    requires P(0, 0.0) && forall a, v, b, w :: P(a, v) && P(b, w) ==> P(a + b, v + w)
    requires forall i :: 0 <= i < |ms| && ms[i].product == p && Inbound(ms[i]) ==>
      P(ms[i].quantity, ms[i].quantity as real * ms[i].unitCost)
    ensures P(InQty(ms, p), InValue(ms, p))
  {
    if ms != [] {
      var n := |ms| - 1;
      forall i | 0 <= i < n && ms[..n][i].product == p && Inbound(ms[..n][i])
        ensures P(ms[..n][i].quantity, ms[..n][i].quantity as real * ms[..n][i].unitCost)
      {
        assert ms[i].product == p && Inbound(ms[i]);
      }
      TotalsHave(ms[..n], p, P);
    }
  }

  lemma BetweenQuotient(units: int, money: real, c: real, lo: real, hi: real)
    requires 0 < units && c * units as real == money && Between(units, money, lo, hi)
    ensures lo <= c <= hi
  {
    var q := units as real;
    if c < lo { Increases(c, lo, q); }
    if hi < c { Increases(hi, c, q); }
  }

  lemma Increases(a: real, b: real, q: real)
    requires 0.0 < q && a < b
    ensures a * q < b * q
  {
    TimesPositive(b - a, q);
    assert (b - a) * q == b * q - a * q;
  }

  lemma TimesPositive(a: real, b: real)
    requires 0.0 < a && 0.0 < b
    ensures 0.0 < a * b
  {}

  lemma BetweenPositive(units: int, money: real, lo: real, hi: real)
    requires 0 < units && 0.0 < lo && Between(units, money, lo, hi)
    ensures 0.0 < money
  {
    TimesPositive(lo, units as real);
  }

  lemma TotalsBetween(ms: seq<Movement>, p: ProductId, lo: real, hi: real)
    requires CostsBetween(ms, p, lo, hi)
    ensures Between(InQty(ms, p), InValue(ms, p), lo, hi)
  {
    var P := (units: int, money: real) => Between(units, money, lo, hi);
    forall a, v, b, w | P(a, v) && P(b, w) ensures P(a + b, v + w) { BetweenAdds(a, v, b, w, lo, hi); }
    forall i | 0 <= i < |ms| && ms[i].product == p && Inbound(ms[i])
      ensures P(ms[i].quantity, ms[i].quantity as real * ms[i].unitCost)
    {
      RowBetween(ms[i].quantity, ms[i].unitCost, lo, hi);
    }
    TotalsHave(ms, p, P);
  }

  /** It lies between the least and the greatest inbound cost; where all came in at one cost, it is that. */
  lemma AverageBetween(ms: seq<Movement>, p: ProductId, lo: real, hi: real)
    requires CostsBetween(ms, p, lo, hi)
    ensures AverageCost(ms, p).Some? ==> lo <= AverageCost(ms, p).value <= hi
    ensures 0.0 < lo && 0 < InQty(ms, p) ==> AverageCost(ms, p).Some?
  {
    TotalsBetween(ms, p, lo, hi);
    QuotientBetween(InQty(ms, p), InValue(ms, p), lo, hi, AverageCost(ms, p));
  }

  lemma QuotientBetween(units: int, money: real, lo: real, hi: real, average: Option<real>)
    requires Between(units, money, lo, hi)
    requires average == if 0 < units && 0.0 < money then Some(money / units as real) else None
    ensures average.Some? ==> lo <= average.value <= hi
    ensures 0.0 < lo && 0 < units ==> average.Some?
  {
    if average.Some? {
      Quotient(money, units as real);
      BetweenQuotient(units, money, average.value, lo, hi);
    } else if 0.0 < lo && 0 < units {
      BetweenPositive(units, money, lo, hi);
    }
  }

  lemma Quotient(v: real, q: real)
    requires q != 0.0
    ensures v / q * q == v
  {}

  /** Where every product a deal drew on came in at one cost, its goods cost that for every unit. */
  lemma {:induction false} ValuedAtOneCost(ledger: seq<Movement>, rows: seq<Movement>, c: real)
    requires forall m :: m in rows ==> AverageCost(ledger, m.product) == Some(c)
    ensures Valued(ledger, rows) == UnitsIn(rows) as real * c
  {
    if rows != [] {
      var n := |rows| - 1;
      ValuedAtOneCost(ledger, rows[..n], c);
      AtAdds(UnitsIn(rows[..n]), -rows[n].quantity, Some(c));
    }
  }

  /** The VAT a deal has to carry is what was paid and cannot be claimed back. */
  lemma {:induction false} LostIsUnclaimed(es: seq<Expense>, paid: seq<real>, claimed: seq<real>)
    requires |paid| == |es| == |claimed|
    requires forall i :: 0 <= i < |es| ==> paid[i] == es[i].vat && claimed[i] == es[i].reclaimableVat
    ensures SumR(Lost(es)) == SumR(paid) - SumR(claimed)
  {
    if es != [] {
      var n := |es| - 1;
      LostIsUnclaimed(es[..n], paid[..n], claimed[..n]);
      assert Lost(es)[..n] == Lost(es[..n]);
    }
  }

  lemma NetsAreExpenses(es: seq<Expense>, nets: seq<real>)
    requires |nets| == |es| && forall i :: 0 <= i < |es| ==> nets[i] == es[i].net
    ensures SumR(Nets(es)) == SumR(nets)
  {
    assert Nets(es) == nets;
  }
}
