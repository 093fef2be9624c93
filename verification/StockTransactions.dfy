/**
 Concurrent stock transactions, one statement at a time (internal/services/stock.go:89-108 inside
 the transactions of counter.go:317-338 and purchasing.go:623-676). A transaction locks a product
 row, sums the ledger it can see, and inserts; locks are held until it commits or rolls back.
 Nothing is assumed about the order in which transactions take their turns.
 */
module StockTransactions {
  import opened Common
  import opened Stock

  type TxId = nat

  datatype Step = Lock | Summing | Insert(onHand: int)

  /** given == pending + todo: what the transaction set out to post, has posted, has still to post. */
  datatype Tx = Tx(given: seq<Movement>, pending: seq<Movement>, todo: seq<Movement>, next: Step)

  datatype Batch = Batch(tx: TxId, posted: seq<Movement>)

  /** `ledger` is what is committed; `log` is how it got there. */
  datatype Sys = Sys(products: set<ProductId>, ledger: seq<Movement>, owner: map<ProductId, TxId>,
                     txs: map<TxId, Tx>, finished: set<TxId>, log: seq<Batch>)

  const Empty := Sys({}, [], map[], map[], {}, [])

  /**
   Carry is the opening balance of a product brought in from the old stock column; negative figures
   are not carried. Catalogue(ps) replaces the set of live products.
   */
  datatype Event =
    | Begin(t: TxId, todo: seq<Movement>)
    | Next(t: TxId)
    | Abort(t: TxId)
    | Carry(t: TxId, product: ProductId, stock: nat)
    | Catalogue(products: set<ProductId>)

  function Release(owner: map<ProductId, TxId>, t: TxId): map<ProductId, TxId> {
    map p | p in owner && owner[p] != t :: owner[p]
  }

  function Rollback(s: Sys, t: TxId): Sys {
    s.(txs := s.txs - {t}, owner := Release(s.owner, t), finished := s.finished + {t})
  }

  function Commit(s: Sys, t: TxId): Sys
    requires t in s.txs
  {
    s.(txs := s.txs - {t}, owner := Release(s.owner, t), finished := s.finished + {t},
       ledger := s.ledger + s.txs[t].pending, log := s.log + [Batch(t, s.txs[t].pending)])
  }

  /** One statement of transaction t. A lock held by another leaves it waiting. */
  function Advance(s: Sys, t: TxId): Sys
    requires t in s.txs
  {
    var tx := s.txs[t];
    if tx.todo == [] then Commit(s, t)
    else
      var m := tx.todo[0];
      match tx.next
      case Lock =>
        if m.product !in s.products then Rollback(s, t)
        else if m.product in s.owner && s.owner[m.product] != t then s
        else s.(owner := s.owner[m.product := t], txs := s.txs[t := tx.(next := Summing)])
      case Summing =>
        s.(txs := s.txs[t := tx.(next := Insert(OnHand(s.ledger + tx.pending, m.product)))])
      case Insert(onHand) =>
        if onHand + m.quantity < 0 then Rollback(s, t)
        else s.(txs := s.txs[t := Tx(tx.given, tx.pending + [m], tx.todo[1..], Lock)])
  }

  function CarryIn(p: ProductId, stock: nat): Movement {
    Movement(p, Opening, stock, 0.0, None, "Opening balance")
  }

  function Apply(s: Sys, e: Event): Sys {
    match e
    case Begin(t, todo) =>
      if t in s.txs || t in s.finished then s else s.(txs := s.txs[t := Tx(todo, [], todo, Lock)])
    case Next(t) => if t in s.txs then Advance(s, t) else s
    case Abort(t) => if t in s.txs then Rollback(s, t) else s
    case Carry(t, p, stock) =>
      if t in s.txs || t in s.finished then s
      else s.(ledger := s.ledger + [CarryIn(p, stock)], finished := s.finished + {t},
              log := s.log + [Batch(t, [CarryIn(p, stock)])])
    case Catalogue(ps) => s.(products := ps)
  }

  function Run(s: Sys, es: seq<Event>): Sys {
    if es == [] then s else Apply(Run(s, es[..|es| - 1]), es[|es| - 1])
  }

  // --- The invariant -----------------------------------------------------------------

  ghost predicate Holds(s: Sys, t: TxId, p: ProductId) {
    p in s.owner && s.owner[p] == t
  }

  /** t holds the lock on everything it has posted and on what it is about to post. */
  ghost predicate Guarded(s: Sys, t: TxId)
    requires t in s.txs
  {
    var tx := s.txs[t];
    && (forall i :: 0 <= i < |tx.pending| ==> Holds(s, t, tx.pending[i].product))
    && (tx.todo != [] && !tx.next.Lock? ==> Holds(s, t, tx.todo[0].product))
  }

  /** Were t to commit now the ledger would be sound, and the balance it read is still covered. */
  ghost predicate Fits(s: Sys, t: TxId)
    requires t in s.txs
  {
    var tx := s.txs[t];
    && tx.given == tx.pending + tx.todo
    && Sound(s.ledger + tx.pending)
    && (tx.todo != [] && tx.next.Insert? ==> tx.next.onHand <= OnHand(s.ledger + tx.pending, tx.todo[0].product))
  }

  function Posted(log: seq<Batch>): seq<Movement> {
    if log == [] then [] else Posted(log[..|log| - 1]) + log[|log| - 1].posted
  }

  ghost predicate Inv(s: Sys) {
    && Sound(s.ledger)
    && (forall t :: t in s.txs ==> Guarded(s, t) && Fits(s, t))
    && s.ledger == Posted(s.log)
  }

  // --- Adding to the committed ledger behind a transaction's back -----------------------

  /** More committed movements that leave a transaction's own products alone, or only add to them. */
  ghost predicate Behind(more: seq<Movement>, tx: Tx) {
    forall p :: OnHand(more, p) >= 0 || (!Touches(tx.pending, p)
      && (tx.todo != [] && tx.next.Insert? ==> tx.todo[0].product != p))
  }

  lemma {:induction false} StillSound(ledger: seq<Movement>, more: seq<Movement>, pending: seq<Movement>, n: nat)
    requires n <= |pending| && Sound(ledger + pending) && Sound(ledger + more)
    requires forall p :: OnHand(more, p) >= 0 || !Touches(pending, p)
    ensures Sound(ledger + more + pending[..n])
  {
    if n == 0 {
      assert ledger + more + pending[..0] == ledger + more;
    } else {
      StillSound(ledger, more, pending, n - 1);
      var part, m := pending[..n - 1], pending[n - 1];
      var p := m.product;
      assert Touches(pending, p);
      assert OnHand(more, p) >= 0;
      assert pending[..n] == part + [m];
      assert ledger + more + pending[..n] == (ledger + more + part) + [m];
      assert (ledger + pending)[..|ledger| + n] == (ledger + part) + [m];
      OnHandSnoc(ledger + part, m, p);
      OnHandConcat(ledger, part, p);
      OnHandConcat(ledger + more, part, p);
      OnHandConcat(ledger, more, p);
      RecordKeepsSound(ledger + more + part, m);
    }
  }

  lemma FitsBehind(s: Sys, s': Sys, t: TxId, more: seq<Movement>)
    requires t in s.txs && t in s'.txs && s'.txs[t] == s.txs[t] && Fits(s, t)
    requires s'.ledger == s.ledger + more && Sound(s'.ledger) && Behind(more, s.txs[t])
    ensures Fits(s', t)
  {
    var tx := s.txs[t];
    StillSound(s.ledger, more, tx.pending, |tx.pending|);
    assert tx.pending[..|tx.pending|] == tx.pending;
    if tx.todo != [] && tx.next.Insert? {
      var p := tx.todo[0].product;
      OnHandConcat(s.ledger, tx.pending, p);
      OnHandConcat(s.ledger + more, tx.pending, p);
      OnHandConcat(s.ledger, more, p);
      assert s'.ledger + tx.pending == (s.ledger + more) + tx.pending;
    }
  }

  /** What t posted is on products only t holds, so no other transaction is touched by it. */
  lemma OthersUntouched(s: Sys, t: TxId, u: TxId)
    requires t in s.txs && u in s.txs && t != u && Guarded(s, t) && Guarded(s, u)
    ensures Behind(s.txs[t].pending, s.txs[u])
  {
    var mine, theirs := s.txs[t].pending, s.txs[u];
    forall p ensures OnHand(mine, p) >= 0 || (!Touches(theirs.pending, p)
      && (theirs.todo != [] && theirs.next.Insert? ==> theirs.todo[0].product != p))
    {
      if Touches(mine, p) {
        var i :| 0 <= i < |mine| && mine[i].product == p;
        assert Holds(s, t, p);
      } else {
        Untouched(mine, p);
      }
    }
  }

  // --- Every event keeps it --------------------------------------------------------------

  lemma CommitKeepsInv(s: Sys, t: TxId)
    requires Inv(s) && t in s.txs
    ensures Inv(Commit(s, t))
  {
    var s', mine := Commit(s, t), s.txs[t].pending;
    assert Fits(s, t) && Guarded(s, t);
    assert s'.log[..|s.log|] == s.log;
    forall u | u in s'.txs ensures Guarded(s', u) && Fits(s', u) {
      assert u != t && Guarded(s, u) && Fits(s, u);
      OthersUntouched(s, t, u);
      FitsBehind(s, s', u, mine);
      forall p | Holds(s, u, p) ensures Holds(s', u, p) {}
    }
  }

  lemma RollbackKeepsInv(s: Sys, t: TxId)
    requires Inv(s) && t in s.txs
    ensures Inv(Rollback(s, t))
  {
    var s' := Rollback(s, t);
    forall u | u in s'.txs ensures Guarded(s', u) && Fits(s', u) {
      assert u != t && Guarded(s, u) && Fits(s, u);
      forall p | Holds(s, u, p) ensures Holds(s', u, p) {}
    }
  }

  /** The transaction that moves changes nothing the others rely on. */
  lemma OthersKept(s: Sys, s': Sys, t: TxId)
    requires Inv(s) && s'.ledger == s.ledger && s'.log == s.log && s'.txs - {t} == s.txs - {t}
    requires forall u, p :: u != t && Holds(s, u, p) ==> Holds(s', u, p)
    requires t in s'.txs ==> Guarded(s', t) && Fits(s', t)
    ensures Inv(s')
  {
    forall u | u in s'.txs ensures Guarded(s', u) && Fits(s', u) {
      if u != t {
        assert u in s'.txs - {t} && u in s.txs - {t};
        assert Guarded(s, u) && Fits(s, u);
      }
    }
  }

  lemma LockKeepsInv(s: Sys, t: TxId)
    requires Inv(s) && t in s.txs && s.txs[t].todo != [] && s.txs[t].next.Lock?
    requires var p := s.txs[t].todo[0].product; p !in s.owner || s.owner[p] == t
    ensures var tx := s.txs[t];
            Inv(s.(owner := s.owner[tx.todo[0].product := t], txs := s.txs[t := tx.(next := Summing)]))
  {
    var tx := s.txs[t];
    var s' := s.(owner := s.owner[tx.todo[0].product := t], txs := s.txs[t := tx.(next := Summing)]);
    assert Guarded(s, t) && Fits(s, t);
    OthersKept(s, s', t);
  }

  lemma SumKeepsInv(s: Sys, t: TxId)
    requires Inv(s) && t in s.txs && s.txs[t].todo != [] && s.txs[t].next.Summing?
    ensures Inv(Advance(s, t))
  {
    assert Guarded(s, t) && Fits(s, t);
    OthersKept(s, Advance(s, t), t);
  }

  lemma InsertKeepsInv(s: Sys, t: TxId)
    requires Inv(s) && t in s.txs && s.txs[t].todo != [] && s.txs[t].next.Insert?
    requires 0 <= s.txs[t].next.onHand + s.txs[t].todo[0].quantity
    ensures Inv(Advance(s, t))
  {
    var s', tx, m := Advance(s, t), s.txs[t], s.txs[t].todo[0];
    assert Guarded(s, t) && Fits(s, t);
    assert s.ledger + (tx.pending + [m]) == (s.ledger + tx.pending) + [m];
    RecordKeepsSound(s.ledger + tx.pending, m);
    assert tx.pending + tx.todo == (tx.pending + [m]) + tx.todo[1..];
    OthersKept(s, s', t);
  }

  lemma AdvanceKeepsInv(s: Sys, t: TxId)
    requires Inv(s) && t in s.txs
    ensures Inv(Advance(s, t))
  {
    var tx := s.txs[t];
    if tx.todo == [] {
      CommitKeepsInv(s, t);
    } else {
      match tx.next
      case Lock =>
        if tx.todo[0].product !in s.products { RollbackKeepsInv(s, t); }
        else if tx.todo[0].product in s.owner && s.owner[tx.todo[0].product] != t {}
        else { LockKeepsInv(s, t); }
      case Summing => SumKeepsInv(s, t);
      case Insert(onHand) =>
        if onHand + tx.todo[0].quantity < 0 { RollbackKeepsInv(s, t); } else { InsertKeepsInv(s, t); }
    }
  }

  lemma CarryKeepsInv(s: Sys, t: TxId, p: ProductId, stock: nat)
    requires Inv(s) && t !in s.txs && t !in s.finished
    ensures Inv(Apply(s, Carry(t, p, stock)))
  {
    var s', m := Apply(s, Carry(t, p, stock)), CarryIn(p, stock);
    SoundNow(s.ledger, p);
    RecordKeepsSound(s.ledger, m);
    assert s'.log[..|s.log|] == s.log;
    forall q ensures OnHand([m], q) >= 0 {
      OnHandSnoc([], m, q);
      assert [] + [m] == [m];
    }
    forall u | u in s'.txs ensures Guarded(s', u) && Fits(s', u) {
      assert Guarded(s, u) && Fits(s, u);
      FitsBehind(s, s', u, [m]);
    }
  }

  lemma BeginKeepsInv(s: Sys, t: TxId, todo: seq<Movement>)
    requires Inv(s) && t !in s.txs
    ensures Inv(s.(txs := s.txs[t := Tx(todo, [], todo, Lock)]))
  {
    assert s.ledger + [] == s.ledger;
    OthersKept(s, s.(txs := s.txs[t := Tx(todo, [], todo, Lock)]), t);
  }

  lemma ApplyKeepsInv(s: Sys, e: Event)
    requires Inv(s)
    ensures Inv(Apply(s, e))
  {
    match e
    case Begin(t, todo) => if t !in s.txs && t !in s.finished { BeginKeepsInv(s, t, todo); }
    case Next(t) => if t in s.txs { AdvanceKeepsInv(s, t); }
    case Abort(t) => if t in s.txs { RollbackKeepsInv(s, t); }
    case Carry(t, p, stock) => if t !in s.txs && t !in s.finished { CarryKeepsInv(s, t, p, stock); }
    case Catalogue(ps) =>
      var s' := Apply(s, e);
      forall u | u in s'.txs ensures Guarded(s', u) && Fits(s', u) { assert Guarded(s, u) && Fits(s, u); }
  }

  lemma {:induction false} ReachableInv(es: seq<Event>)
    ensures Inv(Run(Empty, es))
  {
    if es == [] {
      assert Sound([]);
    } else {
      ReachableInv(es[..|es| - 1]);
      ApplyKeepsInv(Run(Empty, es[..|es| - 1]), es[|es| - 1]);
    }
  }

  // --- What the row locks buy --------------------------------------------------------------

  /**
   However stock transactions interleave, the committed balance of every product is never negative,
   not after any prefix of the ledger either.
   */
  lemma NeverOversold(es: seq<Event>, p: ProductId)
    ensures 0 <= OnHand(Run(Empty, es).ledger, p)
    ensures Sound(Run(Empty, es).ledger)
  {
    ReachableInv(es);
    SoundNow(Run(Empty, es).ledger, p);
  }

  /** Movements posted one after another through the balance check. */
  ghost predicate Replays(ledger: seq<Movement>, batch: seq<Movement>) {
    forall k :: 0 <= k < |batch| ==> 0 <= OnHand(ledger + batch[..k], batch[k].product) + batch[k].quantity
  }

  lemma {:induction false} PostedSplit(log: seq<Batch>, i: nat)
    requires i < |log|
    ensures Posted(log[..i]) + log[i].posted <= Posted(log)
    decreases |log| - i
  {
    var n := |log| - 1;
    if i == n {
      assert log[..n] == log[..i];
    } else {
      PostedSplit(log[..n], i);
      assert log[..n][..i] == log[..i];
    }
  }

  /**
   The interleaving is serialisable: running the committed transactions one at a time, in commit
   order, every balance check along the way succeeds and the same ledger results.
   */
  lemma SerialReplay(es: seq<Event>, i: nat)
    requires i < |Run(Empty, es).log|
    ensures var s := Run(Empty, es);
            s.ledger == Posted(s.log) && Replays(Posted(s.log[..i]), s.log[i].posted)
  {
    var s := Run(Empty, es);
    ReachableInv(es);
    var before, batch := Posted(s.log[..i]), s.log[i].posted;
    PostedSplit(s.log, i);
    forall k | 0 <= k < |batch| ensures 0 <= OnHand(before + batch[..k], batch[k].product) + batch[k].quantity {
      var upTo := before + batch[..k + 1];
      assert upTo == (before + batch[..k]) + [batch[k]];
      assert s.ledger[..|before| + k + 1] == (before + batch)[..|before| + k + 1] == upTo;
      OnHandSnoc(before + batch[..k], batch[k], batch[k].product);
    }
  }

  /**
   A transaction commits all it was given or nothing: a batch in the log is the whole list its
   transaction began with, and each transaction commits at most once.
   */
  ghost predicate Whole(s: Sys) {
    && (forall i :: 0 <= i < |s.log| ==> s.log[i].tx in s.finished)
    && (forall t :: t in s.txs ==> t !in s.finished)
    && (forall i, j :: 0 <= i < j < |s.log| ==> s.log[i].tx != s.log[j].tx)
  }

  lemma {:induction false} AllOrNothing(es: seq<Event>)
    ensures Whole(Run(Empty, es))
    ensures forall i :: 0 <= i < |Run(Empty, es).log| ==> Began(es, Run(Empty, es).log[i])
  {
    if es != [] {
      var n := |es| - 1;
      var s, e := Run(Empty, es[..n]), es[n];
      AllOrNothing(es[..n]);
      ReachableInv(es[..n]);
      var s' := Apply(s, e);
      forall i | 0 <= i < |s'.log| ensures Began(es, s'.log[i]) {
        if i < |s.log| {
          assert Began(es[..n], s.log[i]);
          BeganGrows(es, n, s.log[i]);
        } else if e.Carry? {
          assert es[n] == e;
        } else {
          assert Fits(s, e.t) && s.txs[e.t].todo == [];
          assert s.txs[e.t].given == s.txs[e.t].pending;
          GivenWasBegun(es[..n], e.t);
          BeganGrows(es, n, s'.log[i]);
        }
      }
    }
  }

  /** The batch is what some Begin announced, or one opening balance. */
  ghost predicate Began(es: seq<Event>, b: Batch) {
    exists i :: 0 <= i < |es| && Announces(es[i], b)
  }

  ghost predicate Announces(e: Event, b: Batch) {
    match e
    case Begin(t, todo) => b == Batch(t, todo)
    case Carry(t, p, stock) => b == Batch(t, [CarryIn(p, stock)])
    case _ => false
  }

  lemma BeganGrows(es: seq<Event>, n: nat, b: Batch)
    requires n <= |es| && Began(es[..n], b)
    ensures Began(es, b)
  {
    var i :| 0 <= i < n && Announces(es[..n][i], b);
    assert Announces(es[i], b);
  }

  lemma {:induction false} GivenWasBegun(es: seq<Event>, t: TxId)
    requires t in Run(Empty, es).txs
    ensures Began(es, Batch(t, Run(Empty, es).txs[t].given))
  {
    if es != [] {
      var n := |es| - 1;
      var s, e := Run(Empty, es[..n]), es[n];
      if t in s.txs {
        GivenWasBegun(es[..n], t);
        assert Run(Empty, es).txs[t].given == s.txs[t].given;
        BeganGrows(es, n, Batch(t, s.txs[t].given));
      } else {
        assert Announces(es[n], Batch(t, Run(Empty, es).txs[t].given));
      }
    }
  }

  // --- Who holds which lock ----------------------------------------------------------------------

  /** It has posted a movement of the product, or has locked it to post one. */
  ghost predicate Engaged(tx: Tx, p: ProductId) {
    (exists i :: 0 <= i < |tx.pending| && tx.pending[i].product == p)
    || (tx.todo != [] && tx.next != Lock && tx.todo[0].product == p)
  }

  ghost predicate LocksJust(s: Sys) {
    forall t, p :: Holds(s, t, p) <==> t in s.txs && Engaged(s.txs[t], p)
  }

  lemma OverKeepsLocks(s: Sys, t: TxId)
    requires LocksJust(s) && t in s.txs
    ensures LocksJust(Rollback(s, t)) && LocksJust(Commit(s, t))
  {
    forall u, p
      ensures Holds(Rollback(s, t), u, p) <==> Holds(s, u, p) && u != t
      ensures Holds(Commit(s, t), u, p) <==> Holds(s, u, p) && u != t
    {}
  }

  lemma PostedStillEngages(tx: Tx, m: Movement, p: ProductId)
    requires tx.todo != [] && tx.todo[0] == m && tx.next != Lock
    ensures Engaged(Tx(tx.given, tx.pending + [m], tx.todo[1..], Lock), p) <==> Engaged(tx, p)
  {
    var posted := tx.pending + [m];
    assert posted[|tx.pending|] == m && forall i :: 0 <= i < |tx.pending| ==> posted[i] == tx.pending[i];
  }

  lemma AdvanceKeepsLocks(s: Sys, t: TxId)
    requires LocksJust(s) && t in s.txs
    ensures LocksJust(Advance(s, t))
  {
    OverKeepsLocks(s, t);
    var tx, s' := s.txs[t], Advance(s, t);
    forall u, p | t in s'.txs
      ensures Holds(s', u, p) <==> u in s'.txs && Engaged(s'.txs[u], p)
    {
      assert Holds(s, u, p) <==> u in s.txs && Engaged(s.txs[u], p);
      if tx.todo != [] {
        assert Holds(s, t, tx.todo[0].product) <==> Engaged(tx, tx.todo[0].product);
        if tx.next.Insert? { PostedStillEngages(tx, tx.todo[0], p); }
      }
    }
  }

  lemma AllOverAllFree(s: Sys)
    requires LocksJust(s)
    ensures s.txs == map[] ==> s.owner == map[]
  {
    forall p | p in s.owner ensures s.owner[p] in s.txs {
      assert Holds(s, s.owner[p], p);
    }
  }

  lemma BeginKeepsLocks(s: Sys, t: TxId, todo: seq<Movement>)
    requires LocksJust(s)
    ensures LocksJust(Apply(s, Begin(t, todo)))
  {
    var s' := Apply(s, Begin(t, todo));
    forall u, p ensures Holds(s', u, p) <==> u in s'.txs && Engaged(s'.txs[u], p) {
      assert Holds(s, u, p) <==> u in s.txs && Engaged(s.txs[u], p);
    }
  }

  lemma ApplyKeepsLocks(s: Sys, e: Event)
    requires LocksJust(s)
    ensures LocksJust(Apply(s, e))
  {
    match e
    case Begin(t, todo) => BeginKeepsLocks(s, t, todo);
    case Next(t) => if t in s.txs { AdvanceKeepsLocks(s, t); }
    case Abort(t) => if t in s.txs { OverKeepsLocks(s, t); }
    case Carry(t, p, stock) => SameLocks(s, Apply(s, e));
    case Catalogue(ps) => SameLocks(s, Apply(s, e));
  }

  lemma SameLocks(s: Sys, s': Sys)
    requires LocksJust(s) && s'.owner == s.owner && s'.txs == s.txs
    ensures LocksJust(s')
  {
    forall t, p ensures Holds(s', t, p) <==> Holds(s, t, p) {}
  }

  /**
   In every reachable state a product is locked by a transaction exactly if that is under way and has
   posted a movement of the product or is about to. So nothing stays locked once all are over.
   */
  lemma {:induction false} LocksExactly(es: seq<Event>)
    ensures LocksJust(Run(Empty, es))
    ensures Run(Empty, es).txs == map[] ==> Run(Empty, es).owner == map[]
  {
    if es != [] {
      var n := |es| - 1;
      LocksExactly(es[..n]);
      ApplyKeepsLocks(Run(Empty, es[..n]), es[n]);
    }
    AllOverAllFree(Run(Empty, es));
  }

  /** A figure carried in becomes the opening movement of its product, and counts in full. */
  lemma CarriedInFull(s: Sys, t: TxId, p: ProductId, stock: nat, q: ProductId)
    requires t !in s.txs && t !in s.finished
    ensures var s' := Apply(s, Carry(t, p, stock));
      s'.ledger == s.ledger + [Movement(p, "opening", stock, 0.0, None, "Opening balance")]
      && OnHand(s'.ledger, q) == OnHand(s.ledger, q) + (if p == q then stock else 0)
  {
    OnHandSnoc(s.ledger, CarryIn(p, stock), q);
  }

  // --- A transaction that fits goes through ----------------------------------------------------

  /** Its products exist and each of its movements leaves a balance, one after another. */
  ghost predicate Postable(products: set<ProductId>, ledger: seq<Movement>, todo: seq<Movement>) {
    forall k :: 0 <= k < |todo| ==>
      todo[k].product in products && 0 <= OnHand(ledger + todo[..k], todo[k].product) + todo[k].quantity
  }

  lemma PostableHead(products: set<ProductId>, ledger: seq<Movement>, todo: seq<Movement>)
    requires todo != []
    ensures Postable(products, ledger, todo) <==>
      todo[0].product in products && 0 <= OnHand(ledger, todo[0].product) + todo[0].quantity
      && Postable(products, ledger + [todo[0]], todo[1..])
  {
    var rest := todo[1..];
    assert ledger + todo[..0] == ledger;
    forall k | 0 <= k < |rest| ensures ledger + [todo[0]] + rest[..k] == ledger + todo[..k + 1] {}
    if Postable(products, ledger, todo) {
      assert todo[0].product in products && 0 <= OnHand(ledger + todo[..0], todo[0].product) + todo[0].quantity;
      forall k | 0 <= k < |rest|
        ensures rest[k].product in products
        ensures 0 <= OnHand(ledger + [todo[0]] + rest[..k], rest[k].product) + rest[k].quantity
      {
        assert todo[k + 1] == rest[k];
      }
    } else {
      var k :| 0 <= k < |todo|
        && !(todo[k].product in products && 0 <= OnHand(ledger + todo[..k], todo[k].product) + todo[k].quantity);
      if k > 0 { assert rest[k - 1] == todo[k]; }
    }
  }

  /** The transaction's own statements, until it is over. */
  ghost function Drive(s: Sys, t: TxId, n: nat): Sys
    decreases n
  {
    if n == 0 || t !in s.txs then s else Drive(Advance(s, t), t, n - 1)
  }

  /** No other transaction holds a lock it will need. */
  ghost predicate Unhindered(s: Sys, t: TxId)
    requires t in s.txs
  {
    forall i :: 0 <= i < |s.txs[t].todo| ==>
      s.txs[t].todo[i].product in s.owner ==> s.owner[s.txs[t].todo[i].product] == t
  }

  /** Over, with the ledger as it was or longer by just these movements. */
  ghost predicate Ended(s: Sys, s': Sys, t: TxId, posted: Option<seq<Movement>>) {
    t !in s'.txs && t in s'.finished
    && match posted
       case None => s'.ledger == s.ledger && s'.log == s.log
       case Some(ms) => s'.ledger == s.ledger + ms && s'.log == s.log + [Batch(t, ms)]
  }

  /** Lock, sum and insert for one movement: on to the next, or rolled back. */
  lemma OneMovement(s: Sys, t: TxId)
    requires t in s.txs && s.txs[t].todo != [] && s.txs[t].next == Lock && Unhindered(s, t)
    ensures var tx := s.txs[t]; var m := tx.todo[0];
      var s' := Drive(s, t, 3);
      if m.product in s.products && 0 <= OnHand(s.ledger + tx.pending, m.product) + m.quantity
      then t in s'.txs && s'.txs[t] == Tx(tx.given, tx.pending + [m], tx.todo[1..], Lock) && s'.ledger == s.ledger
        && s'.log == s.log && s'.products == s.products && s'.owner == s.owner[m.product := t]
      else Ended(s, s', t, None)
  {
    var tx := s.txs[t];
    var m := tx.todo[0];
    assert m.product in s.owner ==> s.owner[m.product] == t;
    var s1 := Advance(s, t);
    if m.product in s.products {
      assert s1.txs[t] == tx.(next := Summing);
      var s2 := Advance(s1, t);
      assert s2.txs[t] == tx.(next := Insert(OnHand(s.ledger + tx.pending, m.product)));
      assert Drive(s2, t, 1) == Drive(Advance(s2, t), t, 0);
      assert Drive(s1, t, 2) == Drive(s2, t, 1);
    }
    assert Drive(s, t, 3) == Drive(s1, t, 2);
  }

  lemma {:induction false} DriveOn(s: Sys, t: TxId, a: nat, b: nat)
    ensures Drive(s, t, a + b) == Drive(Drive(s, t, a), t, b)
    decreases a
  {
    if a > 0 && t in s.txs { DriveOn(Advance(s, t), t, a - 1, b); }
  }

  lemma CommitNow(s: Sys, t: TxId)
    requires t in s.txs && s.txs[t].todo == []
    ensures Ended(s, Drive(s, t, 1), t, Some(s.txs[t].pending))
  {
    assert Drive(s, t, 1) == Drive(Commit(s, t), t, 0);
  }

  lemma StillUnhindered(s: Sys, s': Sys, t: TxId)
    requires t in s.txs && s.txs[t].todo != [] && Unhindered(s, t)
    requires t in s'.txs && s'.txs[t].todo == s.txs[t].todo[1..]
    requires s'.owner == s.owner[s.txs[t].todo[0].product := t]
    ensures Unhindered(s', t)
  {
    forall i | 0 <= i < |s'.txs[t].todo| && s'.txs[t].todo[i].product in s'.owner
      ensures s'.owner[s'.txs[t].todo[i].product] == t
    {
      assert s'.txs[t].todo[i] == s.txs[t].todo[i + 1];
    }
  }

  /** What the rest of the transaction will come to. */
  ghost function Outcome(products: set<ProductId>, ledger: seq<Movement>, tx: Tx): Option<seq<Movement>> {
    if Postable(products, ledger + tx.pending, tx.todo) then Some(tx.pending + tx.todo) else None
  }

  lemma OutcomeNext(products: set<ProductId>, ledger: seq<Movement>, tx: Tx)
    requires tx.todo != []
    ensures var m := tx.todo[0];
      Outcome(products, ledger, tx) ==
        if m.product in products && 0 <= OnHand(ledger + tx.pending, m.product) + m.quantity
        then Outcome(products, ledger, Tx(tx.given, tx.pending + [m], tx.todo[1..], Lock)) else None
  {
    PostableHead(products, ledger + tx.pending, tx.todo);
    assert ledger + (tx.pending + [tx.todo[0]]) == ledger + tx.pending + [tx.todo[0]];
    assert tx.pending + [tx.todo[0]] + tx.todo[1..] == tx.pending + tx.todo;
  }

  lemma {:induction false} RestExactly(s: Sys, t: TxId)
    requires t in s.txs && s.txs[t].next == Lock && Unhindered(s, t)
    ensures Ended(s, Drive(s, t, 3 * |s.txs[t].todo| + 1), t, Outcome(s.products, s.ledger, s.txs[t]))
    decreases |s.txs[t].todo|
  {
    var tx := s.txs[t];
    if tx.todo == [] {
      assert tx.pending + tx.todo == tx.pending;
      CommitNow(s, t);
    } else {
      OneMovement(s, t);
      OutcomeNext(s.products, s.ledger, tx);
      var s3 := Drive(s, t, 3);
      DriveOn(s, t, 3, 3 * (|tx.todo| - 1) + 1);
      if t in s3.txs {
        StillUnhindered(s, s3, t);
        RestExactly(s3, t);
      }
    }
  }

  /**
   A transaction nobody holds up commits exactly if its products exist and every one of its movements
   leaves a balance; then the ledger is longer by just these, and otherwise it is as it was.
   */
  lemma UnhinderedExactly(s: Sys, t: TxId, todo: seq<Movement>)
    requires t !in s.txs && t !in s.finished
    requires forall i :: 0 <= i < |todo| ==> todo[i].product !in s.owner
    ensures Ended(s, Drive(Apply(s, Begin(t, todo)), t, 3 * |todo| + 1), t,
                  if Postable(s.products, s.ledger, todo) then Some(todo) else None)
  {
    var s1 := Apply(s, Begin(t, todo));
    RestExactly(s1, t);
    assert s1.ledger + [] == s.ledger && [] + todo == todo;
  }
}
