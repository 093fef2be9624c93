/**
 Charges booked after a delivery: exactly which sequences of them are accepted, that the order
 they come in does not matter, and that late is as good as up front.
 */
module LateCharges {
  import opened Common
  import opened LandedCost
  import opened Purchasing
  import opened PurchaseSafety
  import opened PurchaseCosting
  import PurchaseTheorems

  // --- Which sequences are accepted ---------------------------------------------------------

  /** What the receipt's charges come to, in ngwee, with the charges cs on top. */
  function TotalWith(r: GoodsReceipt, cs: seq<Component>): int {
    ToNgwee(TotalComponents(r.components + StoredAll(cs)))
  }

  ghost predicate SpreadsWith(s: State, id: ReceiptId, cs: seq<Component>)
    requires id < |s.receipts| && s.receipts[id].order < |s.orders|
  {
    var r := s.receipts[id];
    Spreads(TotalWith(r, cs), r.basis, BasisLines(s.orders[r.order].lines, r.rate, r.lines))
  }

  /** Each charge is in order and each running total can be spread. */
  ghost predicate AcceptableInTurn(s: State, id: ReceiptId, cs: seq<Component>)
    requires id < |s.receipts| && s.receipts[id].order < |s.orders|
  {
    forall k :: 0 <= k < |cs| ==> ChargeOk(cs[k]) && SpreadsWith(s, id, cs[..k + 1])
  }

  lemma ReceiptsPlaced(s: State, id: ReceiptId)
    requires Inv(s) && id < |s.receipts|
    ensures s.receipts[id].order < |s.orders|
  {
    assert ReceiptOk(s.orders, s.ledger, s.receipts[id]);
  }

  lemma AcceptableFront(s: State, id: ReceiptId, front: seq<Component>, c: Component)
    requires id < |s.receipts| && s.receipts[id].order < |s.orders| && AcceptableInTurn(s, id, front + [c])
    ensures AcceptableInTurn(s, id, front) && ChargeOk(c) && SpreadsWith(s, id, front + [c])
  {
    var all, n := front + [c], |front|;
    assert ChargeOk(all[n]) && SpreadsWith(s, id, all[..n + 1]);
    assert all[..n + 1] == all;
    forall k | 0 <= k < n ensures ChargeOk(front[k]) && SpreadsWith(s, id, front[..k + 1]) {
      assert ChargeOk(all[k]) && SpreadsWith(s, id, all[..k + 1]);
      assert all[..k + 1] == front[..k + 1];
    }
  }

  lemma AcceptableBack(s: State, id: ReceiptId, front: seq<Component>, c: Component)
    requires id < |s.receipts| && s.receipts[id].order < |s.orders| && AcceptableInTurn(s, id, front)
    requires ChargeOk(c) && SpreadsWith(s, id, front + [c])
    ensures AcceptableInTurn(s, id, front + [c])
  {
    var all, n := front + [c], |front|;
    forall k | 0 <= k < |all| ensures ChargeOk(all[k]) && SpreadsWith(s, id, all[..k + 1]) {
      if k < n {
        assert ChargeOk(front[k]) && SpreadsWith(s, id, front[..k + 1]);
        assert all[..k + 1] == front[..k + 1] && all[k] == front[k];
      } else {
        assert all[..k + 1] == all && all[k] == c;
      }
    }
  }

  lemma AcceptableSnoc(s: State, id: ReceiptId, front: seq<Component>, c: Component)
    requires id < |s.receipts| && s.receipts[id].order < |s.orders|
    ensures AcceptableInTurn(s, id, front + [c]) <==>
      AcceptableInTurn(s, id, front) && ChargeOk(c) && SpreadsWith(s, id, front + [c])
  {
    if AcceptableInTurn(s, id, front + [c]) { AcceptableFront(s, id, front, c); }
    if AcceptableInTurn(s, id, front) && ChargeOk(c) && SpreadsWith(s, id, front + [c]) {
      AcceptableBack(s, id, front, c);
    }
  }

  /** Costing a receipt changes neither its goods nor, beyond the new charges, its total. */
  lemma SpreadsAfter(s: State, t: State, id: ReceiptId, front: seq<Component>, c: Component)
    requires id < |s.receipts| && s.receipts[id].order < |s.orders| && CostedOnce(s, id, front) == Some(t)
    ensures |t.receipts| == |s.receipts| && t.receipts[id].order < |t.orders|
    ensures SpreadsWith(t, id, [c]) <==> SpreadsWith(s, id, front + [c])
  {
    var r, u := s.receipts[id], t.receipts[id];
    StoredSnoc(front, c);
    assert StoredAll([c]) == [Stored(c)];
    assert u.components + StoredAll([c]) == r.components + StoredAll(front + [c]);
    var ol := s.orders[r.order].lines;
    assert BasisLines(ol, u.rate, u.lines) == BasisLines(ol, r.rate, r.lines);
  }

  /** A sequence of late charges is accepted exactly when it is acceptable in turn. */
  lemma {:induction false} AcceptedExactly(s: State, id: ReceiptId, cs: seq<Component>)
    requires Inv(s) && id < |s.receipts|
    ensures s.receipts[id].order < |s.orders|
    ensures ChargeAll(s, id, cs).Some? <==> AcceptableInTurn(s, id, cs)
  {
    ReceiptsPlaced(s, id);
    if cs != [] {
      var n := |cs| - 1;
      var front, c := cs[..n], cs[n];
      assert cs == front + [c];
      AcceptedExactly(s, id, front);
      AcceptableSnoc(s, id, front, c);
      if ChargeAll(s, id, front).Some? { NextAccepted(s, id, front, c); }
    }
  }

  lemma NextAccepted(s: State, id: ReceiptId, front: seq<Component>, c: Component)
    requires Inv(s) && id < |s.receipts| && s.receipts[id].order < |s.orders| && ChargeAll(s, id, front).Some?
    ensures DoCharge(ChargeAll(s, id, front).value, id, c).1 == Done <==>
      ChargeOk(c) && SpreadsWith(s, id, front + [c])
  {
    var t := ChargeAll(s, id, front).value;
    assert StoredAll([c]) == [Stored(c)];
    if front == [] {
      assert front + [c] == [c];
      ChargeAcceptedExactly(s, id, c);
    } else {
      ChargesAtOnce(s, id, front);
      ChargeAcceptedExactly(t, id, c);
      SpreadsAfter(s, t, id, front, c);
    }
  }

  // --- Charges at non-negative rates ------------------------------------------------------------

  /** No charge is a credit in disguise; a rate of zero stands for one. */
  predicate Forward(cs: seq<Component>) { forall i :: 0 <= i < |cs| ==> 0.0 <= cs[i].rate }

  ghost predicate AllOk(cs: seq<Component>) { forall i :: 0 <= i < |cs| ==> ChargeOk(cs[i]) }

  lemma ForwardAmount(c: Component)
    requires 0.0 <= c.rate && 0.0 <= c.amount
    ensures 0.0 <= AmountZMW(Stored(c))
  {}

  /** The longer the list of such charges, the larger the total. */
  lemma {:induction false} TotalsGrow(before: seq<Component>, cs: seq<Component>, k: nat)
    requires Forward(cs) && AllOk(cs) && k <= |cs|
    ensures TotalComponents(before + StoredAll(cs[..k])) <= TotalComponents(before + StoredAll(cs))
    decreases |cs| - k
  {
    if k == |cs| {
      assert cs[..k] == cs;
    } else {
      TotalsGrow(before, cs, k + 1);
      assert cs[..k + 1] == cs[..k] + [cs[k]];
      StoredSnoc(cs[..k], cs[k]);
      assert before + StoredAll(cs[..k + 1]) == (before + StoredAll(cs[..k])) + [Stored(cs[k])];
      AmountsSnoc(before + StoredAll(cs[..k]), Stored(cs[k]));
      ForwardAmount(cs[k]);
    }
  }

  lemma NgweeMonotone(x: real, y: real)
    requires x <= y
    ensures ToNgwee(x) <= ToNgwee(y)
  {}

  lemma NowNotNegative(s: State, id: ReceiptId)
    requires Inv(s) && id < |s.receipts|
    ensures 0 <= ToNgwee(TotalComponents(s.receipts[id].components))
    ensures s.receipts[id].order < |s.orders| && SpreadsWith(s, id, [])
  {
    var r := s.receipts[id];
    assert ReceiptOk(s.orders, s.ledger, r);
    assert r.components + StoredAll([]) == r.components;
    ReceiptCostable(r.basis, TotalComponents(r.components), BasisLines(s.orders[r.order].lines, r.rate, r.lines));
  }

  /** Such charges are accepted one after another exactly when all of them together can be spread. */
  lemma ForwardAccepted(s: State, id: ReceiptId, cs: seq<Component>)
    requires Inv(s) && id < |s.receipts| && Forward(cs)
    ensures s.receipts[id].order < |s.orders|
    ensures ChargeAll(s, id, cs).Some? <==> AllOk(cs) && SpreadsWith(s, id, cs)
  {
    AcceptedExactly(s, id, cs);
    NowNotNegative(s, id);
    var r := s.receipts[id];
    if AcceptableInTurn(s, id, cs) && cs != [] {
      assert cs[..|cs| - 1 + 1] == cs && SpreadsWith(s, id, cs[..|cs| - 1 + 1]);
    }
    if AllOk(cs) && SpreadsWith(s, id, cs) {
      forall k | 0 <= k < |cs| ensures ChargeOk(cs[k]) && SpreadsWith(s, id, cs[..k + 1]) {
        PrefixSpreads(s, id, cs, k + 1);
      }
    }
  }

  lemma PrefixSpreads(s: State, id: ReceiptId, cs: seq<Component>, k: nat)
    requires id < |s.receipts| && s.receipts[id].order < |s.orders| && SpreadsWith(s, id, [])
    requires Forward(cs) && AllOk(cs) && k <= |cs| && SpreadsWith(s, id, cs)
    ensures SpreadsWith(s, id, cs[..k])
  {
    var before := s.receipts[id].components;
    TotalsGrow(before, cs, k);
    NgweeMonotone(TotalComponents(before + StoredAll(cs[..k])), TotalComponents(before + StoredAll(cs)));
    TotalsGrow(before, cs[..k], 0);
    assert cs[..k][..0] == [];
    NgweeMonotone(TotalComponents(before + StoredAll([])), TotalComponents(before + StoredAll(cs[..k])));
  }

  lemma PermutedTotal(r: GoodsReceipt, cs: seq<Component>, ds: seq<Component>)
    requires multiset(cs) == multiset(ds)
    ensures TotalWith(r, cs) == TotalWith(r, ds)
  {
    StoredPermuted(cs, ds);
    TotalPermuted(StoredAll(cs), StoredAll(ds));
    TotalConcat(r.components, StoredAll(cs));
    TotalConcat(r.components, StoredAll(ds));
  }

  lemma PermutedAll(cs: seq<Component>, ds: seq<Component>)
    requires multiset(cs) == multiset(ds)
    ensures Forward(cs) ==> Forward(ds)
    ensures AllOk(cs) ==> AllOk(ds)
  {
    forall i | 0 <= i < |ds| ensures ds[i] in cs {
      assert ds[i] in multiset(ds) && ds[i] in multiset(cs);
    }
  }

  // --- Main results -------------------------------------------------------------------------------

  /**
   Late charges are confluent. A sequence is accepted exactly when each charge is in order and
   each running total can be spread; accepted in two orders, it leaves the same shares, unit costs
   and ledger; and at non-negative rates one order is accepted exactly when the other is.
   */
  lemma ChargesConfluent(es: seq<Event>, id: ReceiptId, cs: seq<Component>, ds: seq<Component>)
    requires id < |Run(Start, es).receipts| && multiset(cs) == multiset(ds)
    ensures var s := Run(Start, es);
      s.receipts[id].order < |s.orders|
      && (ChargeAll(s, id, cs).Some? <==> AcceptableInTurn(s, id, cs))
      && (Forward(cs) ==> (ChargeAll(s, id, cs).Some? <==> ChargeAll(s, id, ds).Some?))
    ensures var s := Run(Start, es);
      ChargeAll(s, id, cs).Some? && ChargeAll(s, id, ds).Some? ==>
        SameBooks(ChargeAll(s, id, cs).value, ChargeAll(s, id, ds).value, id)
  {
    var s := Run(Start, es);
    ReachableInv(es);
    AcceptedExactly(s, id, cs);
    if Forward(cs) {
      PermutedAll(cs, ds);
      PermutedAll(ds, cs);
      ForwardAccepted(s, id, cs);
      ForwardAccepted(s, id, ds);
      PermutedTotal(s.receipts[id], cs, ds);
    }
    if ChargeAll(s, id, cs).Some? && ChargeAll(s, id, ds).Some? { SameInEitherOrder(s, id, cs, ds); }
  }

  /** The same in everything but the order in which receipt id lists its charges. */
  ghost predicate SameBooks(a: State, b: State, id: ReceiptId) {
    |a.receipts| == |b.receipts| && id < |a.receipts|
    && a.receipts[id].lines == b.receipts[id].lines
    && a == b.(receipts := b.receipts[id := b.receipts[id].(components := a.receipts[id].components)])
  }

  /** What a delivery's charges come to with the first k late ones on it, and whether that spreads. */
  ghost predicate SpreadsUpTo(s: State, id: OrderId, d: ReceiptDraft, cs: seq<Component>, k: nat)
    requires id < |s.orders| && k <= |cs|
  {
    var o := s.orders[id];
    var r := Uncosted(o, id, d.(charges := d.charges + cs[..k]));
    Spreads(ToNgwee(TotalComponents(r.components)), r.basis, BasisLines(o.lines, r.rate, r.lines))
  }

  lemma ChargesSplit(d: ReceiptDraft, cs: seq<Component>, k: nat)
    requires k <= |cs|
    ensures StoredAll(d.charges + cs[..k]) == StoredAll(d.charges) + StoredAll(cs[..k])
  {}

  lemma SpreadsOnArrived(s: State, id: OrderId, d: ReceiptDraft, cs: seq<Component>, k: nat, p: Posted)
    requires id < |s.orders| && k <= |cs| && SameGoods(p.lines, LinesIn(d))
    ensures var t := Arrived(s, id, Uncosted(s.orders[id], id, d), p);
      |t.receipts| == |s.receipts| + 1 && t.receipts[|s.receipts|].order < |t.orders|
      && (SpreadsWith(t, |s.receipts|, cs[..k]) <==> SpreadsUpTo(s, id, d, cs, k))
  {
    var o, r := s.orders[id], Uncosted(s.orders[id], id, d);
    ChargesSplit(d, cs, k);
    assert BasisLines(o.lines, r.rate, p.lines) == BasisLines(o.lines, r.rate, r.lines);
  }

  /** The receipt a delivery leaves can take the next charges exactly if the delivery could. */
  lemma SpreadsOnReceipt(s: State, id: OrderId, d: ReceiptDraft, cs: seq<Component>, k: nat)
    requires Inv(s) && id < |s.orders| && PostedBy(s, id, d).Some? && k <= |cs|
    ensures var t := Arrived(s, id, Uncosted(s.orders[id], id, d), PostedBy(s, id, d).value);
      |t.receipts| == |s.receipts| + 1 && t.receipts[|s.receipts|].order < |t.orders|
      && (SpreadsWith(t, |s.receipts|, cs[..k]) <==> SpreadsUpTo(s, id, d, cs, k))
  {
    var o, r := s.orders[id], Uncosted(s.orders[id], id, d);
    MoreCharges(o, s.receipts, id, d, []);
    PostedGoods(s.products, s.ledger, o.lines, r.rate, r.lines, ChargeShares(o.lines, r).value);
    SpreadsOnArrived(s, id, d, cs, k, PostedBy(s, id, d).value);
  }

  /** Whether a delivery with some of the charges is recorded turns on whether they spread. */
  lemma DoneUpTo(s: State, id: OrderId, d: ReceiptDraft, cs: seq<Component>, k: nat)
    requires Inv(s) && id < |s.orders| && k <= |cs| && AllOk(cs[..k])
    ensures DoReceive(s, id, d.(charges := d.charges + cs[..k])).1 == Done <==>
      Receivable(s, id, d) && SpreadsUpTo(s, id, d, cs, k)
  {
    var d' := d.(charges := d.charges + cs[..k]);
    PurchaseTheorems.AcceptedExactly(s, id, d');
    if AllOk(d.charges) {
      assert forall i :: 0 <= i < |d'.charges| ==> ChargeOk(d'.charges[i]);
    } else {
      var i :| 0 <= i < |d.charges| && !ChargeOk(d.charges[i]);
      assert d'.charges[i] == d.charges[i];
    }
  }

  /** Everything a delivery must satisfy other than that its charges spread. */
  ghost predicate Receivable(s: State, id: OrderId, d: ReceiptDraft)
    requires id < |s.orders|
  {
    var o := s.orders[id];
    (o.status == Issued || o.status == PartlyReceived) && ReceiptDraftOk(o, s.receipts, id, d)
    && forall i :: 0 <= i < |d.arrivals| && o.lines[d.arrivals[i].line].product.Some? ==>
      o.lines[d.arrivals[i].line].product.value in s.products
  }

  ghost predicate TakenLate(s: State, id: OrderId, d: ReceiptDraft, cs: seq<Component>) {
    DoReceive(s, id, d).1 == Done && ChargeAll(DoReceive(s, id, d).0, |s.receipts|, cs).Some?
  }

  /** A delivery and late charges are taken exactly if each charge is in order and all totals spread. */
  lemma TakenLateExactly(s: State, id: OrderId, d: ReceiptDraft, cs: seq<Component>)
    requires Inv(s) && id < |s.orders|
    ensures TakenLate(s, id, d, cs) <==>
      Receivable(s, id, d) && AllOk(cs) && forall k :: 0 <= k <= |cs| ==> SpreadsUpTo(s, id, d, cs, k)
  {
    DoneUpTo(s, id, d, cs, 0);
    assert cs[..0] == [] && d.charges + cs[..0] == d.charges;
    if DoReceive(s, id, d).1 == Done {
      ReceiveKeeps(s, id, d);
      ReceivePosts(s, id, d);
      var t := DoReceive(s, id, d).0;
      forall k | 0 <= k <= |cs|
        ensures t.receipts[|s.receipts|].order < |t.orders|
        ensures SpreadsWith(t, |s.receipts|, cs[..k]) <==> SpreadsUpTo(s, id, d, cs, k)
      {
        SpreadsOnReceipt(s, id, d, cs, k);
      }
      SpreadsOnReceipt(s, id, d, cs, 0);
      AcceptedExactly(t, |s.receipts|, cs);
      TurnByTurn(s, t, id, d, cs);
    }
  }

  lemma TurnByTurn(s: State, t: State, id: OrderId, d: ReceiptDraft, cs: seq<Component>)
    requires id < |s.orders| && |t.receipts| == |s.receipts| + 1 && t.receipts[|s.receipts|].order < |t.orders|
    requires forall k :: 0 <= k <= |cs| ==> (SpreadsWith(t, |s.receipts|, cs[..k]) <==> SpreadsUpTo(s, id, d, cs, k))
    requires SpreadsUpTo(s, id, d, cs, 0)
    ensures AcceptableInTurn(t, |s.receipts|, cs) <==>
      AllOk(cs) && forall k :: 0 <= k <= |cs| ==> SpreadsUpTo(s, id, d, cs, k)
  {
    if AcceptableInTurn(t, |s.receipts|, cs) {
      forall k | 0 <= k <= |cs| ensures SpreadsUpTo(s, id, d, cs, k) {
        if k > 0 { assert SpreadsWith(t, |s.receipts|, cs[..k - 1 + 1]); }
      }
    }
  }

  /**
   Late is as good as up front. Charges taken after a delivery leave the very state of a delivery
   that had them on it; and the delivery with them is recorded, and all shorter totals spread,
   exactly when the delivery without them is and they are then all accepted. At non-negative rates
   the shorter totals take care of themselves.
   */
  lemma LateEqualsUpFront(es: seq<Event>, id: OrderId, d: ReceiptDraft, cs: seq<Component>)
    requires id < |Run(Start, es).orders|
    ensures var s, upFront := Run(Start, es), d.(charges := d.charges + cs);
      (TakenLate(s, id, d, cs) ==>
        DoReceive(s, id, upFront) == (ChargeAll(DoReceive(s, id, d).0, |s.receipts|, cs).value, Done))
      && (TakenLate(s, id, d, cs) <==>
        DoReceive(s, id, upFront).1 == Done && AllOk(cs)
        && forall k :: 0 <= k < |cs| ==> SpreadsUpTo(s, id, d, cs, k))
      && (Forward(d.charges + cs) ==> (TakenLate(s, id, d, cs) <==> DoReceive(s, id, upFront).1 == Done))
  {
    var s, upFront := Run(Start, es), d.(charges := d.charges + cs);
    ReachableInv(es);
    TakenLateExactly(s, id, d, cs);
    assert cs[..|cs|] == cs;
    if TakenLate(s, id, d, cs) { SameUpFront(s, id, d, cs); }
    if DoReceive(s, id, upFront).1 == Done { ChargesChecked(s, id, d, cs); }
    if AllOk(cs) {
      DoneUpTo(s, id, d, cs, |cs|);
      if Forward(d.charges + cs) && Receivable(s, id, d) && SpreadsUpTo(s, id, d, cs, |cs|) {
        forall k | 0 <= k <= |cs| ensures SpreadsUpTo(s, id, d, cs, k) { EarlierSpreads(s, id, d, cs, k); }
      }
    }
  }

  lemma ChargesChecked(s: State, id: OrderId, d: ReceiptDraft, cs: seq<Component>)
    requires DoReceive(s, id, d.(charges := d.charges + cs)).1 == Done
    ensures AllOk(cs)
  {
    var all := d.charges + cs;
    forall i | 0 <= i < |cs| ensures ChargeOk(cs[i]) { assert all[|d.charges| + i] == cs[i]; }
  }

  lemma EarlierSpreads(s: State, id: OrderId, d: ReceiptDraft, cs: seq<Component>, k: nat)
    requires id < |s.orders| && k <= |cs| && AllOk(d.charges + cs) && Forward(d.charges + cs)
    requires SpreadsUpTo(s, id, d, cs, |cs|)
    ensures SpreadsUpTo(s, id, d, cs, k)
  {
    var all, n := d.charges + cs, |d.charges| + k;
    assert all[..n] == d.charges + cs[..k] && cs[..|cs|] == cs && all[..0] == [];
    TotalsGrow([], all, n);
    assert [] + StoredAll(all[..n]) == StoredAll(all[..n]) && [] + StoredAll(all) == StoredAll(all);
    NgweeMonotone(TotalComponents(StoredAll(all[..n])), TotalComponents(StoredAll(all)));
    TotalsGrow([], all[..n], 0);
    assert all[..n][..0] == [] && [] + StoredAll([]) == [] && AmountsZMW([]) == [];
    NgweeMonotone(0.0, TotalComponents(StoredAll(all[..n])));
    assert ToNgwee(0.0) == 0;
  }

  // --- A credit can be too early ---------------------------------------------------------------------

  const OneArrival := ReceiptDraft(0.0, "", [Arrival(0, 1, 0.0)], [])

  const Freight := Component("freight", 5.0, 1.0)

  const Credit := Component("other", 3.0, -1.0)

  /** The condition on rates is needed: a credit is accepted after the freight it reduces, not before. */
  lemma CreditMustComeLater()
    ensures var es := [Create(PurchaseTheorems.OneUnit), IssueOrder(0, 0, None, 2024), ReceiveGoods(0, OneArrival)];
      var s := Run(Start, es);
      |s.receipts| == 1 && ChargeAll(s, 0, [Freight, Credit]).Some? && ChargeAll(s, 0, [Credit, Freight]).None?
  {
    var es := [Create(PurchaseTheorems.OneUnit), IssueOrder(0, 0, None, 2024)];
    var all := [Create(PurchaseTheorems.OneUnit), IssueOrder(0, 0, None, 2024), ReceiveGoods(0, OneArrival)];
    assert all[..2] == es && Run(Start, all) == Apply(Run(Start, es), all[2]);
    PurchaseTheorems.OneUnitIssued();
    ReachableInv(es);
    ReachableInv(all);
    OneReceived(Run(Start, es), OneArrival);
    CreditLast(Run(Start, all), [Freight, Credit]);
    CreditFirst(Run(Start, all), [Credit, Freight]);
  }

  /** One unit at one kwacha on order, and nothing in. */
  ghost predicate OneOrdered(s: State) {
    Inv(s) && |s.orders| == 1 && s.orders[0].status == Issued && s.orders[0].rate == 1.0
    && s.orders[0].lines == [OrderLine(None, 1, 1.0)] && s.receipts == []
  }

  lemma OneTaken(s: State, d: ReceiptDraft)
    requires OneOrdered(s) && d == OneArrival
    ensures PostedBy(s, 0, d).Some? && DoReceive(s, 0, d).1 == Done
  {
    assert AmountsZMW(Uncosted(s.orders[0], 0, d).components) == [];
    assert ReceiptDraftOk(s.orders[0], s.receipts, 0, d);
    PurchaseTheorems.AcceptedExactly(s, 0, d);
    ReceivePosts(s, 0, d);
  }

  lemma OneWeighs(s: State, d: ReceiptDraft, lines: seq<ReceiptLine>)
    requires OneOrdered(s) && d == OneArrival
    requires var r := Uncosted(s.orders[0], 0, d); SameGoods(lines, r.lines)
    ensures var r := Uncosted(s.orders[0], 0, d); var weights := BasisLines(s.orders[0].lines, r.rate, lines);
      |weights| == 1 && weights[0].valueNgwee == 100 && 0 <= WeightOn(r.basis, weights[0])
  {
    var r := Uncosted(s.orders[0], 0, d);
    assert BasisLines(s.orders[0].lines, r.rate, lines) == BasisLines(s.orders[0].lines, r.rate, r.lines);
  }

  lemma OneReceived(s: State, d: ReceiptDraft)
    requires OneOrdered(s) && d == OneArrival
    ensures var t := DoReceive(s, 0, d).0;
      |t.receipts| == 1 && t.receipts[0].components == [] && t.receipts[0].order == 0 && |t.orders| == 1
      && forall cs :: SpreadsWith(t, 0, cs) <==> 0 <= TotalWith(t.receipts[0], cs)
  {
    var r := Uncosted(s.orders[0], 0, d);
    OneTaken(s, d);
    ReceivePosts(s, 0, d);
    var p := PostedBy(s, 0, d).value;
    PostedGoods(s.products, s.ledger, s.orders[0].lines, r.rate, r.lines, ChargeShares(s.orders[0].lines, r).value);
    OneWeighs(s, d, p.lines);
  }

  /** On a receipt with no charges and usable weights, only the running totals matter. */
  ghost predicate Chargeable(s: State) {
    Inv(s) && |s.receipts| == 1 && s.receipts[0].components == [] && s.receipts[0].order < |s.orders|
    && forall cs :: SpreadsWith(s, 0, cs) <==> 0 <= TotalWith(s.receipts[0], cs)
  }

  lemma CreditLast(s: State, a: seq<Component>)
    requires Chargeable(s) && a == [Freight, Credit]
    ensures ChargeAll(s, 0, a).Some?
  {
    AcceptedExactly(s, 0, a);
    assert a[..0 + 1] == [Freight] && a[..1 + 1] == a;
    CreditTotals();
    assert [] + StoredAll([Freight]) == [Freight] && [] + StoredAll(a) == [Freight] + [Credit];
    assert SpreadsWith(s, 0, [Freight]) && SpreadsWith(s, 0, a);
  }

  lemma CreditFirst(s: State, b: seq<Component>)
    requires Chargeable(s) && b == [Credit, Freight]
    ensures ChargeAll(s, 0, b).None?
  {
    AcceptedExactly(s, 0, b);
    assert b[..0 + 1] == [Credit];
    CreditTotals();
    assert [] + StoredAll([Credit]) == [Credit];
    assert !SpreadsWith(s, 0, b[..0 + 1]);
  }

  lemma CreditTotals()
    ensures ToNgwee(TotalComponents([Freight])) == 500
    ensures ToNgwee(TotalComponents([Freight] + [Credit])) == 200
    ensures ToNgwee(TotalComponents([Credit])) == -300
  {
    AmountsSnoc([], Freight);
    AmountsSnoc([Freight], Credit);
    AmountsSnoc([], Credit);
    assert [] + [Freight] == [Freight] && [] + [Credit] == [Credit] && AmountsZMW([]) == [];
  }
}
