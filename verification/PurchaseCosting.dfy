/** Landed cost over whole runs: nothing is lost, and late charges cost what early ones would have. */
module PurchaseCosting {
  import opened Common
  import opened Stock
  import opened LandedCost
  import opened Purchasing
  import opened PurchaseSafety
  import Apportionment

  // --- Conservation -------------------------------------------------------------------------

  function CarriedValue(l: ReceiptLine): real { l.quantity as real * l.unitCost }

  function CarriedValues(lines: seq<ReceiptLine>): seq<real> {
    seq(|lines|, i requires 0 <= i < |lines| => CarriedValue(lines[i]))
  }

  function GoodsValues(orderLines: seq<OrderLine>, rate: real, lines: seq<ReceiptLine>): seq<real> {
    seq(|lines|, i requires 0 <= i < |lines| =>
      GoodsValue(LineAt(orderLines, lines[i].line), lines[i].quantity, rate))
  }

  lemma CarriedLine(goods: real, share: int, quantity: int)
    requires 0 < quantity
    ensures quantity as real * UnitCost(goods, share, quantity) == goods + FromNgwee(share)
  {}

  lemma NgweeAdd(a: int, b: int)
    ensures FromNgwee(a + b) == FromNgwee(a) + FromNgwee(b)
  {}

  lemma {:induction false} CarriedSum(orderLines: seq<OrderLine>, rate: real, lines: seq<ReceiptLine>, shares: seq<int>)
    requires |lines| == |shares|
    requires forall i :: 0 <= i < |lines| ==>
      0 < lines[i].quantity && lines[i] == CostedLine(orderLines, rate, lines[i], shares[i])
    ensures SumR(CarriedValues(lines)) == SumR(GoodsValues(orderLines, rate, lines)) + FromNgwee(Sum(shares))
  {
    if lines != [] {
      var n := |lines| - 1;
      CarriedSum(orderLines, rate, lines[..n], shares[..n]);
      assert CarriedValues(lines)[..n] == CarriedValues(lines[..n]);
      assert GoodsValues(orderLines, rate, lines)[..n] == GoodsValues(orderLines, rate, lines[..n]);
      var goods := GoodsValue(LineAt(orderLines, lines[n].line), lines[n].quantity, rate);
      CarriedLine(goods, shares[n], lines[n].quantity);
      assert lines[n].unitCost == UnitCost(goods, shares[n], lines[n].quantity);
      NgweeAdd(Sum(shares[..n]), shares[n]);
    }
  }

  /**
   At every moment of every run, what a receipt's units are carried at is what the goods cost
   plus all the charges booked against it so far, to the ngwee; the charges split exactly.
   */
  lemma CostsConserved(es: seq<Event>, id: ReceiptId)
    requires id < |Run(Start, es).receipts|
    ensures var s := Run(Start, es);
      var r := s.receipts[id];
      r.order < |s.orders|
      && SumR(CarriedValues(r.lines)) ==
        SumR(GoodsValues(s.orders[r.order].lines, r.rate, r.lines)) + FromNgwee(ToNgwee(TotalComponents(r.components)))
      && forall i :: 0 <= i < |r.lines| ==> 0.0 <= r.lines[i].apportioned
  {
    var s := Run(Start, es);
    ReachableInv(es);
    var r := s.receipts[id];
    assert ReceiptOk(s.orders, s.ledger, r);
    var ol := s.orders[r.order].lines;
    var shares := ChargeShares(ol, r).value;
    assert forall i :: 0 <= i < |r.lines| ==> LineShape(ol, r.lines[i]);
    CarriedSum(ol, r.rate, r.lines, shares);
    ReceiptSharesExact(r.basis, TotalComponents(r.components), BasisLines(ol, r.rate, r.lines));
  }

  ghost predicate Says(ledger: seq<Movement>, row: nat, p: ProductId, l: ReceiptLine) {
    row < |ledger| && ledger[row].product == p && ledger[row].quantity == l.quantity
    && ledger[row].unitCost == l.unitCost
  }

  /** The ledger and the receipts never disagree: each linked row is that line's goods at that line's cost. */
  lemma LedgerAgrees(es: seq<Event>, id: ReceiptId, i: nat)
    requires id < |Run(Start, es).receipts| && i < |Run(Start, es).receipts[id].lines|
    ensures var s := Run(Start, es);
      var r := s.receipts[id];
      var l := r.lines[i];
      r.order < |s.orders| && l.line < |s.orders[r.order].lines|
      && match s.orders[r.order].lines[l.line].product
         case None => l.movement == None
         case Some(p) => l.movement.Some? && Says(s.ledger, l.movement.value, p, l)
  {
    var s := Run(Start, es);
    ReachableInv(es);
    var r := s.receipts[id];
    assert ReceiptOk(s.orders, s.ledger, r);
    assert LineShape(s.orders[r.order].lines, r.lines[i]) && Linked(s.orders[r.order].lines, s.ledger, r.lines[i]);
  }

  /** A late charge moves no goods: every balance, at every point of the ledger, is what it was. */
  lemma ChargeMovesNoGoods(es: seq<Event>, id: ReceiptId, c: Component)
    ensures var s, s' := Run(Start, es), DoCharge(Run(Start, es), id, c).0;
      |s'.ledger| == |s.ledger|
      && (forall k, p :: 0 <= k <= |s.ledger| ==> OnHand(s'.ledger[..k], p) == OnHand(s.ledger[..k], p))
      && (forall order, line :: Received(s'.receipts, order, line) == Received(s.receipts, order, line))
  {
    var s, s' := Run(Start, es), DoCharge(Run(Start, es), id, c).0;
    ReachableInv(es);
    ChargeKeeps(s, id, c);
    forall k, p | 0 <= k <= |s.ledger| ensures OnHand(s'.ledger[..k], p) == OnHand(s.ledger[..k], p) {
      SameOnHand(s.ledger[..k], s'.ledger[..k], p);
    }
    ChargeSameDeliveries(s, id, c);
    forall order, line ensures Received(s'.receipts, order, line) == Received(s.receipts, order, line) {
      ReceivedSame(s.receipts, s'.receipts, order, line);
    }
  }

  /** A charge total that can be spread over the lines: not below zero, and nothing or on usable weights. */
  predicate Spreads(total: int, basis: string, lines: seq<LineBasisWeight>) {
    0 <= total && (total == 0 || forall l :: l in lines ==> 0 <= WeightOn(basis, l))
  }

  /** Exactly which late charges are booked. */
  lemma ChargeAcceptedExactly(s: State, id: ReceiptId, c: Component)
    requires Inv(s) && id < |s.receipts|
    ensures var r := s.receipts[id];
      r.order < |s.orders|
      && (DoCharge(s, id, c).1 == Done <==>
        ChargeOk(c) && Spreads(ToNgwee(TotalComponents(r.components + [Stored(c)])), r.basis,
                               BasisLines(s.orders[r.order].lines, r.rate, r.lines)))
  {
    var r := s.receipts[id];
    assert ReceiptOk(s.orders, s.ledger, r);
    ReceiptCostable(r.basis, TotalComponents(r.components + [Stored(c)]),
                    BasisLines(s.orders[r.order].lines, r.rate, r.lines));
  }

  // --- Late charges are confluent -------------------------------------------------------------

  /** Books charges one after another; None as soon as one is not accepted. */
  ghost function ChargeAll(s: State, id: ReceiptId, cs: seq<Component>): Option<State> {
    if cs == [] then Some(s)
    else
      match ChargeAll(s, id, cs[..|cs| - 1])
      case None => None
      case Some(t) =>
        var (t', reply) := DoCharge(t, id, cs[|cs| - 1]);
        if reply == Done then Some(t') else None
  }

  lemma CostedTwice(orderLines: seq<OrderLine>, rate: real, lines: seq<ReceiptLine>, first: seq<int>, second: seq<int>)
    requires |lines| == |first| == |second|
    ensures CostedLines(orderLines, rate, CostedLines(orderLines, rate, lines, first), second)
         == CostedLines(orderLines, rate, lines, second)
  {}

  /** Rows rewritten twice hold the second cost. */
  lemma RecostedTwice(ledger: seq<Movement>, first: seq<ReceiptLine>, second: seq<ReceiptLine>)
    requires Apart(first, first, true) && SameLinks(first, second)
    requires forall i :: 0 <= i < |first| && first[i].movement.Some? ==> first[i].movement.value < |ledger|
    ensures Recosted(Recosted(ledger, first), second) == Recosted(ledger, second)
  {
    assert Apart(second, second, true);
    RecostedExactly(ledger, first);
    RecostedExactly(ledger, second);
    RecostedExactly(Recosted(ledger, first), second);
    var a, b := Recosted(Recosted(ledger, first), second), Recosted(ledger, second);
    forall k | 0 <= k < |ledger| ensures a[k] == b[k] {
      if i :| 0 <= i < |second| && second[i].movement == Some(k) {
        assert a[k] == Recosted(ledger, first)[k].(unitCost := second[i].unitCost);
        assert b[k] == ledger[k].(unitCost := second[i].unitCost);
      } else {
        assert forall i :: 0 <= i < |first| ==> first[i].movement != Some(k);
      }
    }
  }

  function Replaced(s: State, id: ReceiptId, r: GoodsReceipt, ledger: seq<Movement>): State
    requires id < |s.receipts|
  {
    s.(receipts := s.receipts[id := r], ledger := ledger)
  }

  lemma ReplacedTwice(s: State, id: ReceiptId, a: GoodsReceipt, first: seq<Movement>, b: GoodsReceipt,
                      second: seq<Movement>)
    requires id < |s.receipts|
    ensures Replaced(Replaced(s, id, a, first), id, b, second) == Replaced(s, id, b, second)
  {
    assert s.receipts[id := a][id := b] == s.receipts[id := b];
  }

  /** The state after costing receipt id once, with the charges cs on top of its own. */
  ghost function CostedOnce(s: State, id: ReceiptId, cs: seq<Component>): Option<State>
    requires id < |s.receipts| && s.receipts[id].order < |s.orders|
  {
    var r := s.receipts[id].(components := s.receipts[id].components + StoredAll(cs));
    var ol := s.orders[r.order].lines;
    match ChargeShares(ol, r)
    case Err(_) => None
    case Ok(shares) =>
      var lines := CostedLines(ol, r.rate, r.lines, shares);
      Some(Replaced(s, id, r.(lines := lines), Recosted(s.ledger, lines)))
  }

  lemma StoredSnoc(cs: seq<Component>, c: Component)
    ensures StoredAll(cs + [c]) == StoredAll(cs) + [Stored(c)]
  {}

  lemma FirstCharge(s: State, id: ReceiptId, c: Component)
    requires Inv(s) && id < |s.receipts| && DoCharge(s, id, c).1 == Done
    ensures s.receipts[id].order < |s.orders| && Some(DoCharge(s, id, c).0) == CostedOnce(s, id, [c])
  {
    assert ReceiptOk(s.orders, s.ledger, s.receipts[id]);
    ChargeExactly(s, id, c);
    assert StoredAll([c]) == [Stored(c)];
  }

  /** Costing a receipt again, with more charges, is costing it once with all of them. */
  lemma CostedAgain(orderLines: seq<OrderLine>, ledger: seq<Movement>, r: GoodsReceipt, first: seq<int>,
                    cs: seq<Component>)
    requires LinesLinked(orderLines, ledger, r.lines) && Apart(r.lines, r.lines, true) && |first| == |r.lines|
    ensures var once := CostedLines(orderLines, r.rate, r.lines, first);
      var shares := ChargeShares(orderLines, r.(components := cs));
      ChargeShares(orderLines, r.(lines := once, components := cs)) == shares
      && (shares.Ok? ==>
        var lines := CostedLines(orderLines, r.rate, r.lines, shares.value);
        CostedLines(orderLines, r.rate, once, shares.value) == lines
        && Recosted(Recosted(ledger, once), lines) == Recosted(ledger, lines))
  {
    var once := CostedLines(orderLines, r.rate, r.lines, first);
    SharesSame(orderLines, r.(lines := once, components := cs), r.(components := cs));
    var shares := ChargeShares(orderLines, r.(components := cs));
    if shares.Ok? {
      CostedTwice(orderLines, r.rate, r.lines, first, shares.value);
      forall i | 0 <= i < |r.lines| ensures r.lines[i].movement.Some? ==> r.lines[i].movement.value < |ledger| {
        assert Linked(orderLines, ledger, r.lines[i]);
      }
      RecostedTwice(ledger, once, CostedLines(orderLines, r.rate, r.lines, shares.value));
    }
  }

  lemma NextCharge(s: State, t: State, id: ReceiptId, front: seq<Component>, c: Component)
    requires Inv(s) && Inv(t) && id < |s.receipts| && s.receipts[id].order < |s.orders|
    requires CostedOnce(s, id, front) == Some(t) && DoCharge(t, id, c).1 == Done
    ensures CostedOnce(s, id, front + [c]) == Some(DoCharge(t, id, c).0)
  {
    StoredSnoc(front, c);
    var r, ol := s.receipts[id], s.orders[s.receipts[id].order].lines;
    assert LinesLinked(ol, s.ledger, r.lines) && Apart(r.lines, r.lines, true) by {
      assert ReceiptOk(s.orders, s.ledger, r);
    }
    var before, cs := r.components + StoredAll(front), r.components + StoredAll(front + [c]);
    assert before + [Stored(c)] == cs;
    var first := ChargeShares(ol, r.(components := before)).value;
    CostedAgain(ol, s.ledger, r, first, cs);
    ChargeExactly(t, id, c);
    var once := r.(components := before, lines := CostedLines(ol, r.rate, r.lines, first));
    assert t == Replaced(s, id, once, Recosted(s.ledger, once.lines));
    assert once.(components := cs) == r.(lines := once.lines, components := cs);
    var shares := ChargeShares(ol, r.(components := cs)).value;
    var lines := CostedLines(ol, r.rate, r.lines, shares);
    ReplacedTwice(s, id, once, t.ledger, r.(components := cs, lines := lines), Recosted(s.ledger, lines));
  }

  /** Charge by charge or all at once: the same receipt, the same ledger. */
  lemma {:induction false} ChargesAtOnce(s: State, id: ReceiptId, cs: seq<Component>)
    requires Inv(s) && id < |s.receipts| && cs != [] && ChargeAll(s, id, cs).Some?
    ensures s.receipts[id].order < |s.orders|
    ensures ChargeAll(s, id, cs) == CostedOnce(s, id, cs)
    ensures Inv(ChargeAll(s, id, cs).value)
  {
    var n := |cs| - 1;
    var front := cs[..n];
    assert cs == front + [cs[n]];
    if n == 0 {
      assert front == [];
      FirstCharge(s, id, cs[0]);
      ChargeKeeps(s, id, cs[0]);
    } else {
      ChargesAtOnce(s, id, front);
      OneMoreCharge(s, ChargeAll(s, id, front).value, id, front, cs[n]);
    }
  }

  lemma OneMoreCharge(s: State, t: State, id: ReceiptId, front: seq<Component>, c: Component)
    requires Inv(s) && Inv(t) && id < |s.receipts| && s.receipts[id].order < |s.orders|
    requires CostedOnce(s, id, front) == Some(t) && DoCharge(t, id, c).1 == Done
    ensures CostedOnce(s, id, front + [c]) == Some(DoCharge(t, id, c).0) && Inv(DoCharge(t, id, c).0)
  {
    ChargeKeeps(t, id, c);
    NextCharge(s, t, id, front, c);
  }

  // --- The order of the charges --------------------------------------------------------------

  lemma {:induction false} AmountsSnoc(cs: seq<Component>, c: Component)
    ensures TotalComponents(cs + [c]) == TotalComponents(cs) + AmountZMW(c)
  {
    assert AmountsZMW(cs + [c]) == AmountsZMW(cs) + [AmountZMW(c)];
    SumRSnoc(AmountsZMW(cs), AmountZMW(c));
  }

  lemma {:induction false} TotalConcat(a: seq<Component>, b: seq<Component>)
    ensures TotalComponents(a + b) == TotalComponents(a) + TotalComponents(b)
  {
    if b == [] {
      assert a + b == a;
    } else {
      var n := |b| - 1;
      TotalConcat(a, b[..n]);
      assert a + b == (a + b[..n]) + [b[n]] && b == b[..n] + [b[n]];
      AmountsSnoc(a + b[..n], b[n]);
      AmountsSnoc(b[..n], b[n]);
    }
  }

  /** Where the last element of one arrangement stands in another; without it they still agree. */
  lemma TakeOut<T>(a: seq<T>, b: seq<T>) returns (k: nat)
    requires a != [] && multiset(a) == multiset(b)
    ensures k < |b| && b == b[..k] + [a[|a| - 1]] + b[k + 1..]
    ensures multiset(a[..|a| - 1]) == multiset(b[..k] + b[k + 1..])
  {
    var x := a[|a| - 1];
    assert a == a[..|a| - 1] + [x];
    assert x in multiset(a);
    assert x in b;
    k :| 0 <= k < |b| && b[k] == x;
    assert b == b[..k] + [x] + b[k + 1..];
    assert multiset(b) == multiset(b[..k]) + multiset{x} + multiset(b[k + 1..]);
    assert multiset(a) == multiset(a[..|a| - 1]) + multiset{x};
    assert multiset(a[..|a| - 1]) == multiset(a) - multiset{x};
    assert multiset(b[..k] + b[k + 1..]) == multiset(b[..k]) + multiset(b[k + 1..]);
  }

  lemma {:induction false} TotalPermuted(a: seq<Component>, b: seq<Component>)
    requires multiset(a) == multiset(b)
    ensures TotalComponents(a) == TotalComponents(b)
    decreases |a|
  {
    if a == [] {
      assert |multiset(b)| == 0;
    } else {
      var k := TakeOut(a, b);
      var n, c := |a| - 1, a[|a| - 1];
      TotalPermuted(a[..n], b[..k] + b[k + 1..]);
      assert a == a[..n] + [c];
      AmountsSnoc(a[..n], c);
      TotalConcat(b[..k] + [c], b[k + 1..]);
      AmountsSnoc(b[..k], c);
      TotalConcat(b[..k], b[k + 1..]);
    }
  }

  lemma {:induction false} StoredPermuted(a: seq<Component>, b: seq<Component>)
    requires multiset(a) == multiset(b)
    ensures multiset(StoredAll(a)) == multiset(StoredAll(b))
    decreases |a|
  {
    if a == [] {
      assert |multiset(b)| == 0;
    } else {
      var k := TakeOut(a, b);
      var n, c := |a| - 1, a[|a| - 1];
      var rest := b[..k] + b[k + 1..];
      StoredPermuted(a[..n], rest);
      assert StoredAll(a) == StoredAll(a[..n]) + [Stored(c)];
      assert StoredAll(b) == StoredAll(b[..k]) + [Stored(c)] + StoredAll(b[k + 1..]);
      assert StoredAll(rest) == StoredAll(b[..k]) + StoredAll(b[k + 1..]);
    }
  }

  lemma CostedPermuted(s: State, id: ReceiptId, cs: seq<Component>, ds: seq<Component>)
    requires id < |s.receipts| && s.receipts[id].order < |s.orders| && multiset(cs) == multiset(ds)
    ensures var a, b := CostedOnce(s, id, cs), CostedOnce(s, id, ds);
      (a.Some? <==> b.Some?)
      && (a.Some? ==>
        |a.value.receipts| == |b.value.receipts| == |s.receipts|
        && a.value.receipts[id].lines == b.value.receipts[id].lines
        && a.value == b.value.(receipts := b.value.receipts[id :=
             b.value.receipts[id].(components := a.value.receipts[id].components)]))
  {
    StoredPermuted(cs, ds);
    TotalPermuted(StoredAll(cs), StoredAll(ds));
    var r := s.receipts[id];
    TotalConcat(r.components, StoredAll(cs));
    TotalConcat(r.components, StoredAll(ds));
    SharesSame(s.orders[r.order].lines, r.(components := r.components + StoredAll(cs)),
               r.(components := r.components + StoredAll(ds)));
  }

  /** Accepted in either order, charges leave the same shares, unit costs and ledger. */
  lemma SameInEitherOrder(s: State, id: ReceiptId, cs: seq<Component>, ds: seq<Component>)
    requires Inv(s) && id < |s.receipts| && multiset(cs) == multiset(ds)
    requires ChargeAll(s, id, cs).Some? && ChargeAll(s, id, ds).Some?
    ensures var a, b := ChargeAll(s, id, cs).value, ChargeAll(s, id, ds).value;
      |a.receipts| == |b.receipts| == |s.receipts|
      && a.receipts[id].lines == b.receipts[id].lines
      && a == b.(receipts := b.receipts[id := b.receipts[id].(components := a.receipts[id].components)])
  {
    assert |cs| == |multiset(cs)| == |multiset(ds)| == |ds|;
    if cs == [] {
      assert ds == [];
      assert s.receipts == s.receipts[id := s.receipts[id].(components := s.receipts[id].components)];
    } else {
      ChargesAtOnce(s, id, cs);
      ChargesAtOnce(s, id, ds);
      CostedPermuted(s, id, cs, ds);
    }
  }

  // --- Late is as good as up front -------------------------------------------------------------

  lemma {:induction false} RecostedAppend(ledger: seq<Movement>, m: Movement, lines: seq<ReceiptLine>)
    requires forall i :: 0 <= i < |lines| && lines[i].movement.Some? ==> lines[i].movement.value < |ledger|
    ensures Recosted(ledger + [m], lines) == Recosted(ledger, lines) + [m]
  {
    if lines != [] { RecostedAppend(ledger, m, lines[..|lines| - 1]); }
  }

  /** Posting with other shares is posting and then recosting. */
  lemma {:induction false} PostRecosted(products: set<ProductId>, ledger: seq<Movement>, orderLines: seq<OrderLine>,
                                        rate: real, lines: seq<ReceiptLine>, first: seq<int>, second: seq<int>)
    requires |lines| == |first| == |second| && Sound(ledger)
    requires forall i :: 0 <= i < |lines| ==> 0 < lines[i].quantity && lines[i].movement == None
    requires Post(products, ledger, orderLines, rate, lines, first).Some?
    ensures var p := Post(products, ledger, orderLines, rate, lines, first).value;
      |p.lines| == |lines|
      && var again := CostedLines(orderLines, rate, p.lines, second);
      Post(products, ledger, orderLines, rate, lines, second) == Some(Posted(again, Recosted(p.ledger, again)))
  {
    if lines == [] {
      assert CostedLines(orderLines, rate, [], second) == [];
    } else {
      var n := |lines| - 1;
      PostExactly(products, ledger, orderLines, rate, lines, first);
      PostRecosted(products, ledger, orderLines, rate, lines[..n], first[..n], second[..n]);
      PostExactly(products, ledger, orderLines, rate, lines[..n], first[..n]);
      PostExactly(products, ledger, orderLines, rate, lines[..n], second[..n]);
      var q := Post(products, ledger, orderLines, rate, lines[..n], first[..n]).value;
      LastRecosted(products, ledger, orderLines, rate, lines, first, second, q);
    }
  }

  lemma LastRecosted(products: set<ProductId>, ledger: seq<Movement>, orderLines: seq<OrderLine>, rate: real,
                     lines: seq<ReceiptLine>, first: seq<int>, second: seq<int>, q: Posted)
    requires |lines| == |first| == |second| > 0 && Sound(q.ledger) && |q.lines| == |lines| - 1
    requires var last := lines[|lines| - 1];
      0 < last.quantity && last.movement == None && InCatalogue(products, orderLines, last)
    requires forall i :: 0 <= i < |q.lines| && q.lines[i].movement.Some? ==> q.lines[i].movement.value < |q.ledger|
    requires var n := |lines| - 1;
      var sofar := CostedLines(orderLines, rate, q.lines, second[..n]);
      Post(products, ledger, orderLines, rate, lines[..n], first[..n]) == Some(q)
      && Post(products, ledger, orderLines, rate, lines[..n], second[..n])
           == Some(Posted(sofar, Recosted(q.ledger, sofar)))
      && Sound(Recosted(q.ledger, sofar))
    ensures var p := Post(products, ledger, orderLines, rate, lines, first);
      p.Some? && |p.value.lines| == |lines|
      && var again := CostedLines(orderLines, rate, p.value.lines, second);
      Post(products, ledger, orderLines, rate, lines, second) == Some(Posted(again, Recosted(p.value.ledger, again)))
  {
    var n := |lines| - 1;
    var sofar := CostedLines(orderLines, rate, q.lines, second[..n]);
    var l1, l2 := CostedLine(orderLines, rate, lines[n], first[n]), CostedLine(orderLines, rate, lines[n], second[n]);
    PostLast(products, ledger, orderLines, rate, lines, first, q);
    PostLast(products, ledger, orderLines, rate, lines, second, Posted(sofar, Recosted(q.ledger, sofar)));
    CostedLast(orderLines, rate, q, l1, second, l2);
    WithLineRecosted(orderLines, q, l1, l2, sofar);
  }

  lemma CostedLast(orderLines: seq<OrderLine>, rate: real, q: Posted, l1: ReceiptLine, second: seq<int>,
                   l2: ReceiptLine)
    requires |second| == |q.lines| + 1 && l2 == CostedLine(orderLines, rate, l1, second[|q.lines|])
    ensures var n, p := |q.lines|, WithLine(orderLines, q, l1);
      |p.lines| == n + 1
      && CostedLines(orderLines, rate, p.lines, second) == CostedLines(orderLines, rate, q.lines, second[..n])
        + [p.lines[n].(apportioned := l2.apportioned, unitCost := l2.unitCost)]
  {
    var n, p := |q.lines|, WithLine(orderLines, q, l1);
    assert p.lines[..n] == q.lines;
    assert CostedLines(orderLines, rate, p.lines, second)[n]
        == p.lines[n].(apportioned := l2.apportioned, unitCost := l2.unitCost);
  }

  lemma WithLineRecosted(orderLines: seq<OrderLine>, q: Posted, l1: ReceiptLine, l2: ReceiptLine,
                        sofar: seq<ReceiptLine>)
    requires |sofar| == |q.lines| && l1.movement == None
    requires l2 == l1.(apportioned := l2.apportioned, unitCost := l2.unitCost)
    requires forall i :: 0 <= i < |sofar| && sofar[i].movement.Some? ==> sofar[i].movement.value < |q.ledger|
    ensures var last := WithLine(orderLines, q, l1).lines[|sofar|];
      var again := sofar + [last.(apportioned := l2.apportioned, unitCost := l2.unitCost)];
      WithLine(orderLines, Posted(sofar, Recosted(q.ledger, sofar)), l2)
        == Posted(again, Recosted(WithLine(orderLines, q, l1).ledger, again))
  {
    match LineAt(orderLines, l1.line).product
    case None => RecostedUnlinked(q.ledger, sofar, l2);
    case Some(product) =>
      RowRecosted(q.ledger, ArrivalMovement(product, l1), ArrivalMovement(product, l2), sofar,
                  l2.(movement := Some(|q.ledger|)));
  }

  lemma RowRecosted(ledger: seq<Movement>, m1: Movement, m2: Movement, lines: seq<ReceiptLine>, l: ReceiptLine)
    requires forall i :: 0 <= i < |lines| && lines[i].movement.Some? ==> lines[i].movement.value < |ledger|
    requires l.movement == Some(|ledger|) && m2 == m1.(unitCost := l.unitCost)
    ensures Recosted(ledger + [m1], lines + [l]) == Recosted(ledger, lines) + [m2]
  {
    RecostedAppend(ledger, m1, lines);
    assert (lines + [l])[..|lines|] == lines;
  }

  lemma RecostedUnlinked(ledger: seq<Movement>, lines: seq<ReceiptLine>, l: ReceiptLine)
    requires l.movement == None
    ensures Recosted(ledger, lines + [l]) == Recosted(ledger, lines)
  {
    assert (lines + [l])[..|lines|] == lines;
  }

  /** Accepted afterwards, charges leave the books as if they had been on the delivery from the start. */
  lemma SameUpFront(s: State, id: OrderId, d: ReceiptDraft, cs: seq<Component>)
    requires Inv(s) && DoReceive(s, id, d).1 == Done && ChargeAll(DoReceive(s, id, d).0, |s.receipts|, cs).Some?
    ensures DoReceive(s, id, d.(charges := d.charges + cs))
         == (ChargeAll(DoReceive(s, id, d).0, |s.receipts|, cs).value, Done)
  {
    if cs == [] {
      assert d.charges + cs == d.charges;
    } else {
      ReceiveKeeps(s, id, d);
      var t := DoReceive(s, id, d).0;
      ChargesAtOnce(t, |s.receipts|, cs);
      AcceptedOk(t, |s.receipts|, cs);
      ReceivePosts(s, id, d);
      ReceivePosts(s, id, d.(charges := d.charges + cs));
      UpFront(s, id, d, cs);
    }
  }

  lemma {:induction false} AcceptedOk(s: State, id: ReceiptId, cs: seq<Component>)
    requires ChargeAll(s, id, cs).Some?
    ensures forall i :: 0 <= i < |cs| ==> ChargeOk(cs[i])
  {
    if cs != [] {
      AcceptedOk(s, id, cs[..|cs| - 1]);
      assert forall i :: 0 <= i < |cs| - 1 ==> cs[..|cs| - 1][i] == cs[i];
    }
  }

  lemma UpFront(s: State, id: OrderId, d: ReceiptDraft, cs: seq<Component>)
    requires Inv(s) && id < |s.orders| && PostedBy(s, id, d).Some? && forall i :: 0 <= i < |cs| ==> ChargeOk(cs[i])
    requires CostedOnce(Arrived(s, id, Uncosted(s.orders[id], id, d), PostedBy(s, id, d).value), |s.receipts|, cs).Some?
    ensures var o, d' := s.orders[id], d.(charges := d.charges + cs);
      PostedBy(s, id, d').Some?
      && CostedOnce(Arrived(s, id, Uncosted(o, id, d), PostedBy(s, id, d).value), |s.receipts|, cs).value
        == Arrived(s, id, Uncosted(o, id, d'), PostedBy(s, id, d').value)
  {
    var o, d' := s.orders[id], d.(charges := d.charges + cs);
    var r := Uncosted(o, id, d);
    MoreCharges(o, s.receipts, id, d, cs);
    var first := ChargeShares(o.lines, r).value;
    var p := PostedBy(s, id, d).value;
    PostedGoods(s.products, s.ledger, o.lines, r.rate, r.lines, first);
    SharesSame(o.lines, Uncosted(o, id, d').(lines := p.lines), Uncosted(o, id, d'));
    UpFrontCosted(s, id, r, Uncosted(o, id, d'), first, p, cs);
  }

  lemma MoreCharges(o: PurchaseOrder, receipts: seq<GoodsReceipt>, id: OrderId, d: ReceiptDraft, cs: seq<Component>)
    requires ReceiptDraftOk(o, receipts, id, d) && forall i :: 0 <= i < |cs| ==> ChargeOk(cs[i])
    ensures var d' := d.(charges := d.charges + cs);
      ReceiptDraftOk(o, receipts, id, d')
      && Uncosted(o, id, d') == Uncosted(o, id, d).(components := Uncosted(o, id, d).components + StoredAll(cs))
    ensures forall i :: 0 <= i < |d.arrivals| ==> 0 < LinesIn(d)[i].quantity && LinesIn(d)[i].movement == None
  {
    var d' := d.(charges := d.charges + cs);
    assert StoredAll(d'.charges) == StoredAll(d.charges) + StoredAll(cs);
    forall i | 0 <= i < |d.arrivals| ensures 0 < LinesIn(d)[i].quantity && LinesIn(d)[i].movement == None {
      assert ArrivalOk(o, receipts, id, d.arrivals[i]);
    }
    assert forall i :: 0 <= i < |d'.charges| ==> ChargeOk(d'.charges[i]);
  }

  lemma PostedGoods(products: set<ProductId>, ledger: seq<Movement>, orderLines: seq<OrderLine>,
                    rate: real, lines: seq<ReceiptLine>, shares: seq<int>)
    requires |lines| == |shares| && Sound(ledger)
    requires forall i :: 0 <= i < |lines| ==> 0 < lines[i].quantity && lines[i].movement == None
    requires Post(products, ledger, orderLines, rate, lines, shares).Some?
    ensures SameGoods(Post(products, ledger, orderLines, rate, lines, shares).value.lines, lines)
  {
    PostExactly(products, ledger, orderLines, rate, lines, shares);
    var p := Post(products, ledger, orderLines, rate, lines, shares).value;
    assert forall i :: 0 <= i < |lines| ==> PostedLine(orderLines, rate, lines[i], shares[i], p.lines[i]);
  }

  lemma UpFrontCosted(s: State, id: OrderId, r: GoodsReceipt, r': GoodsReceipt, first: seq<int>, p: Posted,
                      cs: seq<Component>)
    requires id < |s.orders| && Sound(s.ledger) && r.order == id && r' == r.(components := r.components + StoredAll(cs))
    requires |first| == |r.lines| == |p.lines|
    requires forall i :: 0 <= i < |r.lines| ==> 0 < r.lines[i].quantity && r.lines[i].movement == None
    requires var ol := s.orders[id].lines;
      Post(s.products, s.ledger, ol, r.rate, r.lines, first) == Some(p) && SameGoods(p.lines, r.lines)
      && ChargeShares(ol, r'.(lines := p.lines)) == ChargeShares(ol, r')
    requires CostedOnce(Arrived(s, id, r, p), |s.receipts|, cs).Some?
    ensures var ol := s.orders[id].lines;
      ChargeShares(ol, r').Ok?
      && var p' := Post(s.products, s.ledger, ol, r'.rate, r'.lines, ChargeShares(ol, r').value);
      p'.Some? && Arrived(s, id, r', p'.value) == CostedOnce(Arrived(s, id, r, p), |s.receipts|, cs).value
  {
    var ol, t := s.orders[id].lines, Arrived(s, id, r, p);
    assert t.receipts[|s.receipts|] == r.(lines := p.lines) && t.orders[id].lines == ol;
    assert r.(lines := p.lines).(components := r.components + StoredAll(cs)) == r'.(lines := p.lines);
    var second := ChargeShares(ol, r').value;
    PostRecosted(s.products, s.ledger, ol, r.rate, r.lines, first, second);
    var lines := CostedLines(ol, r.rate, p.lines, second);
    UpFrontStatus(s.orders[id], s.receipts, id, r.(lines := p.lines), r'.(lines := lines));
  }

  lemma UpFrontStatus(o: PurchaseOrder, receipts: seq<GoodsReceipt>, id: OrderId, a: GoodsReceipt, b: GoodsReceipt)
    requires a.order == b.order && SameGoods(a.lines, b.lines)
    ensures StatusAfter(o, receipts + [a], id) == StatusAfter(o, receipts + [b], id)
    ensures (receipts + [a])[|receipts| := b] == receipts + [b]
  {
    forall line: nat ensures Received(receipts + [a], id, line) == Received(receipts + [b], id, line) {
      ReceivedSnoc(receipts, a, id, line);
      ReceivedSnoc(receipts, b, id, line);
      LineQuantitySame(a.lines, b.lines, line);
    }
  }
}
