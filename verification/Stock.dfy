/**
 The stock ledger (internal/services/stock.go, internal/models/stock_models.go): quantity on hand
 is the sum of signed movements, and no movement may take it below zero.
 */
module Stock {
  import opened Common

  type ProductId = nat

  datatype Movement = Movement(product: ProductId, kind: string, quantity: int, unitCost: real,
                               deal: Option<nat>, reason: string)

  const Opening := "opening"
  const Receipt := "receipt"
  const Sale := "sale"
  const Return := "return"
  const Adjustment := "adjustment"
  const WriteOff := "write_off"

  /** The sign a kind must carry, or 0 where either is valid. */
  function Direction(kind: string): int {
    if kind == Opening || kind == Receipt || kind == Return then 1
    else if kind == Sale || kind == WriteOff then -1
    else 0
  }

  datatype Fault = ZeroQuantity | UnknownKind | WrongSign | NeedsReason

  /** ValidateMovement; None means valid. */
  function Validate(m: Movement): Option<Fault> {
    var want := Direction(m.kind);
    if m.quantity == 0 then Some(ZeroQuantity)
    else if want == 0 && m.kind != Adjustment then Some(UnknownKind)
    else if (want > 0 && m.quantity < 0) || (want < 0 && m.quantity > 0) then Some(WrongSign)
    else if (m.kind == Adjustment || m.kind == WriteOff) && m.reason == "" then Some(NeedsReason)
    else None
  }

  /** SELECT SUM(quantity) for one product; a product with no movements has none. */
  function OnHand(ms: seq<Movement>, p: ProductId): int {
    if ms == [] then 0
    else
      var m := ms[|ms| - 1];
      OnHand(ms[..|ms| - 1], p) + (if m.product == p then m.quantity else 0)
  }

  /** At no point in the ledger was any product's balance below zero. */
  ghost predicate Sound(ms: seq<Movement>) {
    forall k, p :: 0 <= k <= |ms| ==> 0 <= OnHand(ms[..k], p)
  }

  ghost predicate Touches(ms: seq<Movement>, p: ProductId) {
    exists i :: 0 <= i < |ms| && ms[i].product == p
  }

  lemma OnHandSnoc(ms: seq<Movement>, m: Movement, p: ProductId)
    ensures OnHand(ms + [m], p) == OnHand(ms, p) + (if m.product == p then m.quantity else 0)
  {
    assert (ms + [m])[..|ms|] == ms;
  }

  lemma {:induction false} OnHandConcat(a: seq<Movement>, b: seq<Movement>, p: ProductId)
    ensures OnHand(a + b, p) == OnHand(a, p) + OnHand(b, p)
  {
    if b == [] {
      assert a + b == a;
    } else {
      OnHandConcat(a, b[..|b| - 1], p);
      assert (a + b)[..|a + b| - 1] == a + b[..|b| - 1];
    }
  }

  lemma {:induction false} Untouched(ms: seq<Movement>, p: ProductId)
    requires !Touches(ms, p)
    ensures OnHand(ms, p) == 0
  {
    if ms != [] {
      var n := |ms| - 1;
      assert ms[n].product != p;
      forall i | 0 <= i < n ensures ms[..n][i].product != p { assert ms[i].product != p; }
      Untouched(ms[..n], p);
    }
  }

  lemma TouchesSnoc(ms: seq<Movement>, m: Movement, p: ProductId)
    ensures Touches(ms + [m], p) <==> Touches(ms, p) || m.product == p
  {
    if i :| 0 <= i < |ms| && ms[i].product == p { assert (ms + [m])[i].product == p; }
    if m.product == p { assert (ms + [m])[|ms|].product == p; }
  }

  lemma SoundNow(ms: seq<Movement>, p: ProductId)
    requires Sound(ms)
    ensures 0 <= OnHand(ms, p)
  {
    assert ms[..|ms|] == ms;
  }

  /** The check RecordMovement makes is exactly what keeps a sound ledger sound. */
  lemma RecordKeepsSound(ms: seq<Movement>, m: Movement)
    requires Sound(ms)
    ensures Sound(ms + [m]) <==> 0 <= OnHand(ms, m.product) + m.quantity
  {
    var out := ms + [m];
    OnHandSnoc(ms, m, m.product);
    assert out[..|out|] == out;
    if 0 <= OnHand(ms, m.product) + m.quantity {
      forall k, p | 0 <= k <= |out| ensures 0 <= OnHand(out[..k], p) {
        if k <= |ms| {
          assert out[..k] == ms[..k];
        } else {
          OnHandSnoc(ms, m, p);
          SoundNow(ms, p);
        }
      }
    }
  }

  // --- Counter sales ---------------------------------------------------------------

  datatype SaleLine = SaleLine(product: Option<ProductId>, description: string, quantity: int, unitPrice: real)

  datatype CounterSale = CounterSale(till: nat, method_: string, lines: seq<SaleLine>)

  const Cash := "cash"

  const Methods: set<string> := {"cash", "mobile_money", "card", "bank_transfer"}

  const VatRate := 0.16

  function LineTotals(lines: seq<SaleLine>): seq<real> {
    seq(|lines|, i requires 0 <= i < |lines| => lines[i].quantity as real * lines[i].unitPrice)
  }

  function Total(lines: seq<SaleLine>, applyVat: bool): real {
    var subtotal := SumR(LineTotals(lines));
    subtotal + (if applyVat then subtotal * VatRate else 0.0)
  }

  predicate LineOk(l: SaleLine) {
    0 < l.quantity && 0.0 <= l.unitPrice && (l.description != "" || l.product.Some?)
  }

  /** How many units of a product the lines ask for together. */
  function Demand(lines: seq<SaleLine>, p: ProductId): int {
    if lines == [] then 0
    else
      var l := lines[|lines| - 1];
      Demand(lines[..|lines| - 1], p) + (if l.product == Some(p) then l.quantity else 0)
  }

  function SaleMovement(l: SaleLine): Movement
    requires l.product.Some?
  {
    Movement(l.product.value, Sale, -l.quantity, 0.0, None, "Counter sale")
  }

  /** One movement per catalogue line, in line order. */
  function SaleMovements(lines: seq<SaleLine>): seq<Movement> {
    if lines == [] then []
    else
      var l := lines[|lines| - 1];
      SaleMovements(lines[..|lines| - 1]) + (if l.product.Some? then [SaleMovement(l)] else [])
  }

  lemma {:induction false} SaleTakesDemand(lines: seq<SaleLine>, p: ProductId)
    ensures OnHand(SaleMovements(lines), p) == -Demand(lines, p)
  {
    if lines != [] {
      var n := |lines| - 1;
      SaleTakesDemand(lines[..n], p);
      if lines[n].product.Some? {
        assert SaleMovements(lines) == SaleMovements(lines[..n]) + [SaleMovement(lines[n])];
        OnHandSnoc(SaleMovements(lines[..n]), SaleMovement(lines[n]), p);
      } else {
        assert SaleMovements(lines) == SaleMovements(lines[..n]);
      }
    }
  }

  lemma {:induction false} DemandGrows(lines: seq<SaleLine>, i: nat, p: ProductId)
    requires i <= |lines| && forall l :: l in lines ==> LineOk(l)
    ensures Demand(lines[..i], p) <= Demand(lines, p)
    decreases |lines| - i
  {
    if i == |lines| {
      assert lines[..i] == lines;
    } else {
      DemandGrows(lines, i + 1, p);
      assert lines[..i + 1] == lines[..i] + [lines[i]];
      DemandSnoc(lines[..i], lines[i], p);
      assert LineOk(lines[i]);
    }
  }

  lemma DemandSnoc(lines: seq<SaleLine>, l: SaleLine, p: ProductId)
    ensures Demand(lines + [l], p) == Demand(lines, p) + (if l.product == Some(p) then l.quantity else 0)
  {
    assert (lines + [l])[..|lines|] == lines;
  }

  lemma InStockSnoc(products: set<ProductId>, ms: seq<Movement>, lines: seq<SaleLine>, l: SaleLine)
    requires InStock(products, ms, lines)
    requires l.product.Some? ==> Available(products, ms, lines + [l], l.product.value)
    ensures InStock(products, ms, lines + [l])
    ensures SaleMovements(lines + [l]) == SaleMovements(lines) + (if l.product.Some? then [SaleMovement(l)] else [])
  {
    assert (lines + [l])[..|lines|] == lines;
    forall x | x in lines + [l] && x.product.Some? ensures Available(products, ms, lines + [l], x.product.value) {
      if x.product != l.product {
        assert Available(products, ms, lines, x.product.value);
        DemandSnoc(lines, l, x.product.value);
      }
    }
  }

  /** With the earlier lines posted, the next one fits exactly when the lines so far are available. */
  lemma BalanceAfter(products: set<ProductId>, before: seq<Movement>, part: seq<SaleLine>, l: SaleLine)
    requires l.product.Some?
    ensures Available(products, before, part + [l], l.product.value) <==>
      (l.product.value in products
       && 0 <= OnHand(before + SaleMovements(part), l.product.value) - l.quantity)
  {
    var p := l.product.value;
    OnHandConcat(before, SaleMovements(part), p);
    SaleTakesDemand(part, p);
    DemandSnoc(part, l, p);
  }

  lemma StillShort(products: set<ProductId>, before: seq<Movement>, lines: seq<SaleLine>, i: nat)
    requires i < |lines| && (forall l :: l in lines ==> LineOk(l)) && lines[i].product.Some?
    requires !Available(products, before, lines[..i + 1], lines[i].product.value)
    ensures !InStock(products, before, lines)
  {
    DemandGrows(lines, i + 1, lines[i].product.value);
    assert lines[i] in lines;
  }

  datatype Till = Till(owner: nat, open: bool)

  /** The caller's most recently opened till that is still open. */
  function OpenTillOf(tills: seq<Till>, user: nat): (t: Option<nat>)
    ensures t.Some? ==> t.value < |tills| && tills[t.value] == Till(user, true)
    ensures forall j :: (if t.Some? then t.value else -1) < j < |tills| ==> tills[j] != Till(user, true)
  {
    if tills == [] then None
    else
      var last := |tills| - 1;
      if tills[last] == Till(user, true) then Some(last) else OpenTillOf(tills[..last], user)
  }

  /** resolveSession: the till named, if it is open, or the caller's own. */
  function ResolveSession(tills: seq<Till>, user: nat, named: Option<nat>): Option<nat> {
    match named
    case None => OpenTillOf(tills, user)
    case Some(t) => if t < |tills| && tills[t].open then Some(t) else None
  }

  datatype SaleError = NoLines | BadMethod | NoTill | BadLine | ShortTender | NoProduct | NotEnoughStock

  /** A sale that names no method is a cash sale. */
  function PaymentMethod(asked: string): string { if asked == "" then Cash else asked }

  /** What the request itself must satisfy, before stock is looked at. */
  predicate SaleRequestOk(lines: seq<SaleLine>, payment: string, till: Option<nat>, applyVat: bool, tendered: real) {
    && lines != [] && PaymentMethod(payment) in Methods && till.Some? && (forall l :: l in lines ==> LineOk(l))
    && (PaymentMethod(payment) == Cash ==> Total(lines, applyVat) <= tendered + 0.005)
  }

  ghost predicate Available(products: set<ProductId>, ms: seq<Movement>, lines: seq<SaleLine>, p: ProductId) {
    p in products && Demand(lines, p) <= OnHand(ms, p)
  }

  /** Every catalogue line names a product that exists and that has enough for all its lines together. */
  ghost predicate InStock(products: set<ProductId>, ms: seq<Movement>, lines: seq<SaleLine>) {
    forall l :: l in lines && l.product.Some? ==> Available(products, ms, lines, l.product.value)
  }

  // --- The request, and what a sale writes -----------------------------------------------------

  /** The lines added up one by one, quantity times unit price. */
  ghost predicate LinesCome(lines: seq<SaleLine>, subtotal: real) {
    exists totals: seq<real> ::
      |totals| == |lines| + 1 && totals[0] == 0.0 && subtotal == totals[|lines|]
      && forall i :: 0 <= i < |lines| ==> totals[i + 1] == totals[i] + lines[i].quantity as real * lines[i].unitPrice
  }

  lemma SubtotalExactly(lines: seq<SaleLine>, subtotal: real)
    ensures LinesCome(lines, subtotal) <==> subtotal == SumR(LineTotals(lines))
  {
    var terms := LineTotals(lines);
    assert forall i :: 0 <= i < |lines| ==> terms[i] == lines[i].quantity as real * lines[i].unitPrice;
    var own := RunningTotals(terms);
    RunningIsSum(terms, own);
    if LinesCome(lines, subtotal) {
      var totals: seq<real> :| |totals| == |lines| + 1 && totals[0] == 0.0 && subtotal == totals[|lines|]
        && forall i :: 0 <= i < |lines| ==> totals[i + 1] == totals[i] + lines[i].quantity as real * lines[i].unitPrice;
      assert Running(terms, totals);
      RunningIsSum(terms, totals);
    }
  }

  /** What the customer owes: the subtotal, with 16 per cent on top where VAT applies. */
  predicate Owed(subtotal: real, applyVat: bool, due: real) {
    due == if applyVat then subtotal + subtotal * 0.16 else subtotal
  }

  ghost predicate GoodLine(l: SaleLine) {
    0 < l.quantity && 0.0 <= l.unitPrice && (l.description != "" || l.product.Some?)
  }

  /** A method of payment the counter knows, an open till, sound lines, and for cash enough of it. */
  lemma SaleRequestInFull(lines: seq<SaleLine>, payment: string, till: Option<nat>, applyVat: bool, tendered: real,
                          subtotal: real, due: real)
    requires LinesCome(lines, subtotal) && Owed(subtotal, applyVat, due)
    ensures SaleRequestOk(lines, payment, till, applyVat, tendered) <==>
      lines != [] && till.Some? && payment in {"", "cash", "mobile_money", "card", "bank_transfer"}
      && (forall i :: 0 <= i < |lines| ==> GoodLine(lines[i]))
      && (payment == "" || payment == "cash" ==> due <= tendered + 0.005)
  {
    SubtotalExactly(lines, subtotal);
    assert forall l :: l in lines ==> exists i :: 0 <= i < |lines| && lines[i] == l;
    assert forall l :: LineOk(l) <==> GoodLine(l);
  }

  /** A named till is taken if it is open, whoever opened it; without a name it is the caller's latest. */
  lemma TillInFull(tills: seq<Till>, user: nat, named: Option<nat>, till: nat)
    ensures ResolveSession(tills, user, named) == Some(till) <==>
      till < |tills| && tills[till].open
      && (named.Some? ==> named.value == till)
      && (named.None? ==>
        tills[till].owner == user
        && forall j :: till < j < |tills| ==> !(tills[j].owner == user && tills[j].open))
  {}

  /** Each catalogue line takes its units off the shelf, in line order; the others write nothing. */
  lemma SaleWrites(lines: seq<SaleLine>, l: SaleLine)
    ensures SaleMovements([]) == []
    ensures SaleMovements(lines + [l]) == SaleMovements(lines)
      + (if l.product.Some? then [Movement(l.product.value, "sale", -l.quantity, 0.0, None, "Counter sale")] else [])
  {
    assert (lines + [l])[..|lines|] == lines;
  }

  /** Which movements are valid: a kind that exists, its sign, and a reason where one is asked for. */
  lemma ValidExactly(m: Movement)
    ensures Validate(m) == None <==>
      (m.kind in {"opening", "receipt", "return"} && 0 < m.quantity)
      || (m.kind in {"sale", "write_off"} && m.quantity < 0 && (m.kind == "write_off" ==> m.reason != ""))
      || (m.kind == "adjustment" && m.quantity != 0 && m.reason != "")
  {}

  /**
   The balance a stock count is compared with is read before the transaction that records the
   difference. So the balance ends at the count exactly when it has not moved in between.
   */
  lemma CountLands(seen: seq<Movement>, now: seq<Movement>, m: Movement, p: ProductId, counted: int)
    requires m.product == p && m.quantity == counted - OnHand(seen, p)
    ensures OnHand(now + [m], p) == counted <==> OnHand(now, p) == OnHand(seen, p)
  {
    OnHandSnoc(now, m, p);
  }

  class Store {
    var products: set<ProductId>
    var movements: seq<Movement>
    var tills: seq<Till>
    var sales: seq<CounterSale>

    /** RecordMovement: appends, unless the product is unknown or its balance would go negative. */
    method RecordMovement(m: Movement) returns (err: Option<SaleError>)
      modifies this`movements
      ensures err == if m.product !in products then Some(NoProduct)
                     else if OnHand(old(movements), m.product) + m.quantity < 0 then Some(NotEnoughStock)
                     else None
      ensures movements == if err == None then old(movements) + [m] else old(movements)
      ensures Sound(old(movements)) ==> Sound(movements)
    {
      if m.product !in products { return Some(NoProduct); }
      var onHand := OnHand(movements, m.product);
      if onHand + m.quantity < 0 { return Some(NotEnoughStock); }
      if Sound(movements) { RecordKeepsSound(movements, m); }
      movements := movements + [m];
      err := None;
    }

    /** StockLevels: the balance of every product that has movements, and of no other. */
    method StockLevels() returns (out: map<ProductId, int>)
      ensures forall p :: p in out <==> Touches(movements, p)
      ensures forall p :: p in out ==> out[p] == OnHand(movements, p)
    {
      out := map[];
      for i := 0 to |movements|
        invariant forall p :: p in out <==> Touches(movements[..i], p)
        invariant forall p :: p in out ==> out[p] == OnHand(movements[..i], p)
      {
        var m := movements[i];
        assert movements[..i + 1] == movements[..i] + [m];
        forall p ensures Touches(movements[..i + 1], p) <==> Touches(movements[..i], p) || p == m.product {
          TouchesSnoc(movements[..i], m, p);
        }
        if m.product !in out { Untouched(movements[..i], m.product); }
        forall p { OnHandSnoc(movements[..i], m, p); }
        out := out[m.product := (if m.product in out then out[m.product] else 0) + m.quantity];
      }
      assert movements[..|movements|] == movements;
    }

    /**
     AdminCreateCounterSale. The sale goes through exactly when the request is in order and every
     product has enough for all its lines together; otherwise nothing is written.
     */
    method CreateCounterSale(user: nat, named: Option<nat>, lines: seq<SaleLine>, payment: string,
                             applyVat: bool, tendered: real) returns (err: Option<SaleError>)
      modifies this`movements, this`sales
      ensures err == None <==>
        (SaleRequestOk(lines, payment, ResolveSession(tills, user, named), applyVat, tendered)
         && InStock(products, old(movements), lines))
      ensures err == None ==> movements == old(movements) + SaleMovements(lines)
      ensures err == None ==>
        sales == old(sales) + [CounterSale(ResolveSession(tills, user, named).value, PaymentMethod(payment), lines)]
      ensures err != None ==> movements == old(movements) && sales == old(sales)
      ensures Sound(old(movements)) ==> Sound(movements)
    {
      if lines == [] { return Some(NoLines); }
      var method_ := payment;
      if method_ == "" { method_ := Cash; }
      if method_ !in Methods { return Some(BadMethod); }
      var till := ResolveSession(tills, user, named);
      if till.None? { return Some(NoTill); }
      var i := 0;
      while i < |lines|
        invariant 0 <= i <= |lines| && forall k :: 0 <= k < i ==> LineOk(lines[k])
      {
        if !LineOk(lines[i]) { return Some(BadLine); }
        i := i + 1;
      }
      if method_ == Cash && tendered + 0.005 < Total(lines, applyVat) { return Some(ShortTender); }

      err := PostLines(lines);
      if err == None { sales := sales + [CounterSale(till.value, method_, lines)]; }
    }

    /** The transaction: one movement per catalogue line, all of them or none. */
    method PostLines(lines: seq<SaleLine>) returns (err: Option<SaleError>)
      requires forall l :: l in lines ==> LineOk(l)
      modifies this`movements
      ensures err == None <==> InStock(products, old(movements), lines)
      ensures movements == if err == None then old(movements) + SaleMovements(lines) else old(movements)
      ensures Sound(old(movements)) ==> Sound(movements)
    {
      var before := movements;
      var i := 0;
      while i < |lines|
        invariant 0 <= i <= |lines|
        invariant movements == before + SaleMovements(lines[..i])
        invariant InStock(products, before, lines[..i])
        invariant Sound(before) ==> Sound(movements)
      {
        assert lines[..i + 1] == lines[..i] + [lines[i]];
        err := PostLine(lines[i], before, lines[..i]);
        if err != None {
          movements := before;
          StillShort(products, before, lines, i);
          return;
        }
        i := i + 1;
      }
      assert lines[..i] == lines;
      err := None;
    }

    /** One line of a sale, the earlier ones having been posted. */
    method PostLine(l: SaleLine, ghost before: seq<Movement>,
                    ghost part: seq<SaleLine>) returns (err: Option<SaleError>)
      requires movements == before + SaleMovements(part) && InStock(products, before, part)
      modifies this`movements
      ensures err == None <==> (l.product.Some? ==> Available(products, before, part + [l], l.product.value))
      ensures err == None ==> movements == before + SaleMovements(part + [l]) && InStock(products, before, part + [l])
      ensures Sound(old(movements)) ==> Sound(movements)
    {
      err := None;
      if l.product.Some? {
        BalanceAfter(products, before, part, l);
        err := RecordMovement(SaleMovement(l));
      }
      if err == None { InStockSnoc(products, before, part, l); }
    }

    /**
     The stock count sent with a product edit: the difference becomes one adjustment, so the new
     balance is the count. Fails only on a negative count.
     */
    method CountStock(p: ProductId, counted: int) returns (err: Option<SaleError>)
      requires p in products
      modifies this`movements
      ensures err == None <==> (0 <= counted || counted == OnHand(old(movements), p))
      ensures err == None ==> OnHand(movements, p) == counted
      ensures forall q :: q != p ==> OnHand(movements, q) == OnHand(old(movements), q)
      ensures old(movements) <= movements && (counted == OnHand(old(movements), p) ==> movements == old(movements))
      ensures err != None ==> movements == old(movements)
      ensures Sound(old(movements)) ==> Sound(movements)
    {
      var onHand := OnHand(movements, p);
      if counted == onHand { return None; }
      var m := Movement(p, Adjustment, counted - onHand, 0.0, None, "Stock count");
      assert Validate(m) == None;
      forall q { OnHandSnoc(movements, m, q); }
      err := RecordMovement(m);
    }

    /**
     BackfillStockOpeningBalances over the products that have no movement yet. Carrying in
     non-negative legacy figures keeps the ledger sound.
     */
    method Backfill(legacy: seq<(ProductId, int)>)
      requires forall i, j :: 0 <= i < j < |legacy| ==> legacy[i].0 != legacy[j].0
      modifies this`movements
      ensures forall i :: 0 <= i < |legacy| ==>
        OnHand(movements, legacy[i].0) ==
          if Touches(old(movements), legacy[i].0) then OnHand(old(movements), legacy[i].0) else legacy[i].1
      ensures forall p :: !Listed(legacy, p) ==> OnHand(movements, p) == OnHand(old(movements), p)
      ensures (forall i :: 0 <= i < |legacy| ==> 0 <= legacy[i].1) && Sound(old(movements)) ==> Sound(movements)
    {
      ghost var before := movements;
      var ms := movements;
      var scanned := seq(|legacy|, i requires 0 <= i < |legacy| => Touched(ms, legacy[i].0));
      var i := 0;
      while i < |legacy|
        invariant 0 <= i <= |legacy|
        invariant forall k :: 0 <= k < i ==>
          OnHand(movements, legacy[k].0) ==
            if Touches(before, legacy[k].0) then OnHand(before, legacy[k].0) else legacy[k].1
        invariant forall p :: !Listed(legacy[..i], p) ==> OnHand(movements, p) == OnHand(before, p)
        invariant (forall k :: 0 <= k < |legacy| ==> 0 <= legacy[k].1) && Sound(before) ==> Sound(movements)
      {
        var (p, stock) := legacy[i];
        assert !Listed(legacy[..i], p);
        forall q ensures Listed(legacy[..i + 1], q) <==> Listed(legacy[..i], q) || q == p {
          ListedSnoc(legacy, i, q);
        }
        if !scanned[i] {
          Untouched(before, p);
          if stock != 0 {
            var m := Movement(p, Opening, stock, 0.0, None, "Opening balance");
            forall q { OnHandSnoc(movements, m, q); }
            if Sound(movements) {
              SoundNow(movements, p);
              RecordKeepsSound(movements, m);
            }
            movements := movements + [m];
          }
        }
        i := i + 1;
      }
      assert legacy[..i] == legacy;
    }
  }

  ghost predicate Listed(legacy: seq<(ProductId, int)>, p: ProductId) {
    exists i :: 0 <= i < |legacy| && legacy[i].0 == p
  }

  lemma ListedSnoc(legacy: seq<(ProductId, int)>, i: nat, p: ProductId)
    requires i < |legacy|
    ensures Listed(legacy[..i + 1], p) <==> Listed(legacy[..i], p) || legacy[i].0 == p
  {
    var a, b := legacy[..i], legacy[..i + 1];
    assert b == a + [legacy[i]];
    if Listed(a, p) {
      var k :| 0 <= k < |a| && a[k].0 == p;
      assert b[k].0 == p;
    }
    if legacy[i].0 == p { assert b[i].0 == p; }
  }

  predicate Touched(ms: seq<Movement>, p: ProductId)
    ensures Touched(ms, p) <==> Touches(ms, p)
  {
    exists i :: 0 <= i < |ms| && ms[i].product == p
  }
}
