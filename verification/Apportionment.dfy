/**
 Largest-remainder apportionment (internal/services/landedcost.go): the specification of
 ApportionNgwee as a function of the total and the weights, and what the repository promises
 about it. A line's share is its floor share, plus one ngwee when fewer than `Left` lines come
 ahead of it in the order "larger remainder first, earlier line on a tie".
 */
module Apportionment {
  import opened Common

  datatype ApportionError = NoLinesToApportion | NegativeApportionment | UnknownBasis

  predicate NonNegative(w: seq<int>) {
    forall i :: 0 <= i < |w| ==> 0 <= w[i]
  }

  /** Weights the shares can be struck against: none negative, not all zero. */
  predicate Usable(w: seq<int>) {
    NonNegative(w) && 0 < Sum(w)
  }

  function Floors(t: int, w: seq<int>): (f: seq<int>)
    requires 0 < Sum(w)
  {
    seq(|w|, i requires 0 <= i < |w| => t * w[i] / Sum(w))
  }

  function Remainders(t: int, w: seq<int>): (r: seq<int>)
    requires 0 < Sum(w)
  {
    seq(|w|, i requires 0 <= i < |w| => t * w[i] % Sum(w))
  }

  /** What floor division leaves to hand out. */
  function Left(t: int, w: seq<int>): int
    requires 0 < Sum(w)
  {
    t - Sum(Floors(t, w))
  }

  /** Line i is served before line j: a larger remainder, or the same one on an earlier line. */
  predicate Before(r: seq<int>, i: int, j: int)
    requires 0 <= i < |r| && 0 <= j < |r|
  {
    r[i] > r[j] || (r[i] == r[j] && i < j)
  }

  function Ahead(r: seq<int>, i: int): set<int>
    requires 0 <= i < |r|
  {
    set j | j in Indices(|r|) && Before(r, j, i)
  }

  /** How many lines are served before line i. */
  function Rank(r: seq<int>, i: int): nat
    requires 0 <= i < |r|
  {
    |Ahead(r, i)|
  }

  function Bonus(r: seq<int>, left: int): (b: seq<int>) {
    seq(|r|, i requires 0 <= i < |r| => if Rank(r, i) < left then 1 else 0)
  }

  /** Every floor, one more for the first `left` lines served. */
  function RoundedUp(f: seq<int>, r: seq<int>, left: int): (s: seq<int>)
    requires |f| == |r|
  {
    seq(|f|, i requires 0 <= i < |f| => f[i] + Bonus(r, left)[i])
  }

  function Shares(t: int, w: seq<int>): (s: seq<int>)
    requires 0 < Sum(w)
    ensures |s| == |w|
  {
    RoundedUp(Floors(t, w), Remainders(t, w), Left(t, w))
  }

  function Ones(n: nat): seq<int> { seq(n, _ => 1) }

  function Zeros(n: nat): seq<int> { seq(n, _ => 0) }

  /** All-zero weights are replaced by an even split. */
  function Effective(w: seq<int>): seq<int> {
    if Sum(w) == 0 then Ones(|w|) else w
  }

  lemma {:induction false} SumOnes(n: nat)
    ensures Sum(Ones(n)) == n
  {
    if n > 0 {
      SumOnes(n - 1);
      assert Ones(n)[..n - 1] == Ones(n - 1);
    }
  }

  lemma {:induction false} SumZeros(n: nat)
    ensures Sum(Zeros(n)) == 0
  {
    if n > 0 {
      SumZeros(n - 1);
      assert Zeros(n)[..n - 1] == Zeros(n - 1);
    }
  }

  lemma EffectiveUsable(w: seq<int>)
    requires |w| > 0 && NonNegative(w)
    ensures Usable(Effective(w)) && |Effective(w)| == |w|
  {
    SumNonNegative(w);
    SumOnes(|w|);
  }

  /** The whole function, errors included and in the order the source tests for them. */
  function Apportion(t: int, w: seq<int>): (r: Result<seq<int>, ApportionError>) {
    if w == [] then Err(NoLinesToApportion)
    else if t < 0 then Err(NegativeApportionment)
    else if t == 0 then Ok(Zeros(|w|))
    else if !NonNegative(w) then Err(NegativeApportionment)
    else EffectiveUsable(w); Ok(Shares(t, Effective(w)))
  }

  // --- The order of service is a ranking -------------------------------------

  lemma RankFollowsOrder(r: seq<int>, i: int, j: int)
    requires 0 <= i < |r| && 0 <= j < |r|
    ensures Before(r, i, j) <==> Rank(r, i) < Rank(r, j)
    ensures Rank(r, i) == Rank(r, j) ==> i == j
  {
    if Before(r, i, j) {
      ProperSubsetSmaller(Ahead(r, i) + {i}, Ahead(r, j), i, Ahead(r, i));
    } else if i != j {
      ProperSubsetSmaller(Ahead(r, j) + {j}, Ahead(r, i), j, Ahead(r, j));
    }
  }

  lemma ProperSubsetSmaller(a: set<int>, b: set<int>, x: int, a': set<int>)
    requires x !in a' && a == a' + {x} && a <= b
    ensures |a'| < |b|
  {
    SubsetSize(a, b);
  }

  /** The first of a non-empty set of lines in the order of service. */
  lemma {:induction false} First(r: seq<int>, s: set<int>) returns (m: int)
    requires 0 < |s| && s <= Indices(|r|)
    ensures m in s && 0 <= m < |r|
    ensures forall i :: i in s && i != m ==> Before(r, m, i)
    decreases |s|
  {
    m :| m in s;
    if s != {m} {
      var rest := First(r, s - {m});
      if Before(r, rest, m) {
        m := rest;
      } else {
        forall i | i in s && i != m ensures Before(r, m, i) {
          if i != rest { assert Before(r, rest, i); }
        }
      }
    }
  }

  ghost function Served(r: seq<int>, k: int): set<int> {
    set i | i in Indices(|r|) && Rank(r, i) < k
  }

  /** The first of the lines not yet served is the next one served. */
  lemma NextServed(r: seq<int>, k: nat) returns (m: int)
    requires k < |r| && |Served(r, k)| == k
    ensures 0 <= m < |r| && Rank(r, m) == k
  {
    var done := Served(r, k);
    var waiting := Indices(|r|) - done;
    assert |waiting| == |r| - k by { assert Indices(|r|) == done + waiting; }
    m := First(r, waiting);
    forall i | i in Indices(|r|) ensures i in Ahead(r, m) <==> i in done {
      RankFollowsOrder(r, i, m);
      RankFollowsOrder(r, m, i);
    }
    assert Ahead(r, m) == done;
  }

  /** Exactly k lines have a rank below k, so handing out `left` ngwee reaches `left` lines. */
  lemma {:induction false} ServedSize(r: seq<int>, k: nat)
    requires k <= |r|
    ensures |Served(r, k)| == k
  {
    if k == 0 {
      assert forall i :: i !in Served(r, 0);
    } else {
      ServedSize(r, k - 1);
      var m := NextServed(r, k - 1);
      forall i | i in Indices(|r|)
        ensures i in Served(r, k) <==> i in Served(r, k - 1) || i == m
      {
        RankFollowsOrder(r, i, m);
      }
      assert Served(r, k) == Served(r, k - 1) + {m};
    }
  }

  lemma BonusSum(r: seq<int>, left: int)
    requires 0 <= left <= |r|
    ensures Sum(Bonus(r, left)) == left
  {
    ServedSize(r, left);
    SumIndicator(Bonus(r, left), Served(r, left));
  }

  // --- How much floor division leaves behind ---------------------------------

  lemma DivMod(a: int, b: int)
    requires 0 < b
    ensures b * (a / b) + a % b == a && 0 <= a % b < b
  {}

  lemma FloorsMeetRemainders(t: int, w: seq<int>)
    requires 0 < Sum(w)
    ensures Sum(w) * Sum(Floors(t, w)) + Sum(Remainders(t, w)) == t * Sum(w)
  {
    FloorsMeetRemaindersTo(t, w, |w|);
    assert Floors(t, w)[..|w|] == Floors(t, w);
    assert Remainders(t, w)[..|w|] == Remainders(t, w);
    assert w[..|w|] == w;
  }

  lemma {:induction false} FloorsMeetRemaindersTo(t: int, w: seq<int>, k: nat)
    requires 0 < Sum(w) && k <= |w|
    ensures Sum(w) * Sum(Floors(t, w)[..k]) + Sum(Remainders(t, w)[..k]) == t * Sum(w[..k])
  {
    if k > 0 {
      var f, r, big := Floors(t, w), Remainders(t, w), Sum(w);
      FloorsMeetRemaindersTo(t, w, k - 1);
      SumSnoc(f[..k - 1], f[k - 1]);
      SumSnoc(r[..k - 1], r[k - 1]);
      SumSnoc(w[..k - 1], w[k - 1]);
      assert f[..k] == f[..k - 1] + [f[k - 1]];
      assert r[..k] == r[..k - 1] + [r[k - 1]];
      assert w[..k] == w[..k - 1] + [w[k - 1]];
      DivMod(t * w[k - 1], big);
      Distribute(big, Sum(f[..k - 1]), f[k - 1]);
      Distribute(t, Sum(w[..k - 1]), w[k - 1]);
    }
  }

  lemma Distribute(a: int, x: int, y: int)
    ensures a * (x + y) == a * x + a * y
  {}

  ghost function NonZero(r: seq<int>): set<int> {
    set i | i in Indices(|r|) && r[i] != 0
  }

  lemma {:induction false} RemaindersBounded(r: seq<int>, big: int)
    requires 0 < big && forall i :: 0 <= i < |r| ==> 0 <= r[i] < big
    ensures 0 <= Sum(r) <= (big - 1) * |NonZero(r)|
  {
    if r == [] {
      assert NonZero(r) == {};
    } else {
      var last := |r| - 1;
      RemaindersBounded(r[..last], big);
      if r[last] == 0 {
        assert NonZero(r) == NonZero(r[..last]);
      } else {
        assert NonZero(r) == NonZero(r[..last]) + {last};
        Distribute(big - 1, |NonZero(r[..last])|, 1);
      }
    }
  }

  lemma RemaindersInRange(t: int, w: seq<int>)
    requires 0 < Sum(w)
    ensures forall i :: 0 <= i < |w| ==> 0 <= Remainders(t, w)[i] < Sum(w)
  {}

  /**
   The left-over is covered by lines that have a remainder to be rounded up, with at least one to
   spare: the length guard of the hand-out loop never cuts it short.
   */
  lemma LeftOverFits(t: int, w: seq<int>)
    requires 0 < Sum(w)
    ensures Left(t, w) * Sum(w) == Sum(Remainders(t, w))
    ensures 0 <= Left(t, w) <= |NonZero(Remainders(t, w))| <= |w|
    ensures NonZero(Remainders(t, w)) != {} ==> Left(t, w) < |NonZero(Remainders(t, w))|
  {
    var r, big, left := Remainders(t, w), Sum(w), Left(t, w);
    var nz := NonZero(r);
    FloorsMeetRemainders(t, w);
    assert left * big == Sum(r) by { LeftTimes(t, Sum(Floors(t, w)), big, Sum(r)); }
    RemaindersInRange(t, w);
    RemaindersBounded(r, big);
    LeftLess(left, big, |nz|);
    SubsetSize(nz, Indices(|w|));
  }

  lemma LeftTimes(t: int, f: int, big: int, r: int)
    requires big * f + r == t * big
    ensures (t - f) * big == r
  {}

  lemma LeftLess(left: int, big: int, n: nat)
    requires 0 < big && 0 <= left * big <= (big - 1) * n
    ensures 0 <= left <= n && (0 < n ==> left < n)
  {
    NotNegative(left, big);
    assert (big - 1) * n == n * big - n;
    Distribute(big, n, -left);
    if n > 0 { NotNegative(n - left - 1, big); }
    NotNegative(n - left, big);
  }

  /** A multiple of d above -d is not negative. */
  lemma NotNegative(k: int, d: int)
    requires 0 < d && -d < k * d
    ensures 0 <= k
  {
    if k <= -1 { MulNonNegative(-1 - k, d); }
  }

  // --- What the shares promise -----------------------------------------------

  lemma RoundedUpRange(f: seq<int>, r: seq<int>, left: int, i: int)
    requires |f| == |r| && 0 <= i < |f|
    ensures |RoundedUp(f, r, left)| == |f|
    ensures f[i] <= RoundedUp(f, r, left)[i] <= f[i] + 1
    ensures RoundedUp(f, r, left)[i] == f[i] + (if Rank(r, i) < left then 1 else 0)
  {
    assert Bonus(r, left)[i] == if Rank(r, i) < left then 1 else 0;
  }

  lemma RoundedUpSum(f: seq<int>, r: seq<int>, left: int)
    requires |f| == |r| && 0 <= left <= |r|
    ensures Sum(RoundedUp(f, r, left)) == Sum(f) + left
  {
    BonusSum(r, left);
    SumAdds(f, Bonus(r, left), RoundedUp(f, r, left));
  }

  /** A line whose share came out whole is not rounded up while others are waiting. */
  lemma WholeNotRoundedUp(r: seq<int>, i: int, left: int)
    requires 0 <= i < |r| && r[i] == 0 && forall j :: 0 <= j < |r| ==> 0 <= r[j]
    requires left <= |NonZero(r)|
    ensures left <= Rank(r, i)
  {
    SubsetSize(NonZero(r), Ahead(r, i));
  }

  lemma WeightlessLine(t: int, w: seq<int>, i: int)
    requires 0 < Sum(w) && 0 <= i < |w| && w[i] == 0
    ensures Floors(t, w)[i] == 0 && Remainders(t, w)[i] == 0
  {
    assert t * w[i] == 0;
  }

  /** The shares add back to the total exactly, and none is a ngwee off its exact share. */
  lemma SharesExact(t: int, w: seq<int>)
    requires 0 <= t && Usable(w)
    ensures |Shares(t, w)| == |w| && Sum(Shares(t, w)) == t
    ensures forall i :: 0 <= i < |w| ==>
      && Floors(t, w)[i] <= Shares(t, w)[i] <= Floors(t, w)[i] + 1
      && 0 <= Shares(t, w)[i] <= t
      && (w[i] == 0 ==> Shares(t, w)[i] == 0)
  {
    var f, r, left := Floors(t, w), Remainders(t, w), Left(t, w);
    LeftOverFits(t, w);
    RoundedUpSum(f, r, left);
    forall i | 0 <= i < |w|
      ensures 0 <= Shares(t, w)[i] && f[i] <= Shares(t, w)[i] <= f[i] + 1
      ensures w[i] == 0 ==> Shares(t, w)[i] == 0
    {
      RoundedUpRange(f, r, left, i);
      ScaledInRange(t, w, i);
      if w[i] == 0 {
        WeightlessLine(t, w, i);
        RemaindersInRange(t, w);
        WholeNotRoundedUp(r, i, left);
      }
    }
    SumNonNegative(Shares(t, w));
  }

  lemma MulNonNegative(a: int, b: int)
    requires 0 <= a && 0 <= b
    ensures 0 <= a * b
  {}

  lemma DivNonNegative(a: int, b: int)
    requires 0 <= a && 0 < b
    ensures 0 <= a / b
  {}

  lemma {:induction false} SumAdds(a: seq<int>, b: seq<int>, c: seq<int>)
    requires |a| == |b| == |c|
    requires forall i :: 0 <= i < |a| ==> c[i] == a[i] + b[i]
    ensures Sum(c) == Sum(a) + Sum(b)
  {
    if a != [] { SumAdds(a[..|a| - 1], b[..|b| - 1], c[..|c| - 1]); }
  }

  /** A heavier line never gets less, and of two equal lines the earlier never gets less. */
  lemma SharesFollowWeights(t: int, w: seq<int>, i: int, j: int)
    requires 0 <= t && Usable(w) && 0 <= i < |w| && 0 <= j < |w|
    requires w[i] > w[j] || (w[i] == w[j] && i < j)
    ensures Shares(t, w)[i] >= Shares(t, w)[j]
  {
    var f, r, left := Floors(t, w), Remainders(t, w), Left(t, w);
    RoundedUpRange(f, r, left, i);
    RoundedUpRange(f, r, left, j);
    if t == 0 {
      ZeroTotal(w);
      SumZeros(|w|);
    } else {
      FloorsFollowWeights(t, w, i, j);
      if f[i] == f[j] { RankFollowsOrder(r, i, j); }
    }
  }

  lemma FloorsFollowWeights(t: int, w: seq<int>, i: int, j: int)
    requires 0 < t && Usable(w) && 0 <= i < |w| && 0 <= j < |w|
    requires w[i] > w[j] || (w[i] == w[j] && i < j)
    ensures Floors(t, w)[i] >= Floors(t, w)[j]
    ensures Floors(t, w)[i] == Floors(t, w)[j] ==> Before(Remainders(t, w), i, j)
  {
    if w[i] > w[j] { ScaleStrict(t, w[j], w[i]); }
    DivMod(t * w[i], Sum(w));
    DivMod(t * w[j], Sum(w));
    DivMonotone(t * w[j], t * w[i], Sum(w));
  }

  lemma ZeroTotal(w: seq<int>)
    requires 0 < Sum(w)
    ensures Floors(0, w) == Zeros(|w|)
  {}

  lemma ScaleStrict(t: int, a: int, b: int)
    requires 0 < t && a < b
    ensures t * a < t * b
  {}

  lemma DivMonotone(a: int, b: int, d: int)
    requires 0 < d && a <= b
    ensures a / d <= b / d
  {
    DivMod(a, d);
    DivMod(b, d);
    Distribute(d, b / d, -(a / d));
    NotNegative(b / d - a / d, d);
  }

  /** Only the proportions of the weights matter. */
  lemma SharesScaleFree(t: int, w: seq<int>, c: int)
    requires 0 <= t && Usable(w) && 0 < c
    ensures var cw := seq(|w|, i requires 0 <= i < |w| => c * w[i]);
            Usable(cw) && Shares(t, cw) == Shares(t, w)
  {
    var cw := seq(|w|, i requires 0 <= i < |w| => c * w[i]);
    SumScales(w, cw, c);
    MulPositive(c, Sum(w));
    forall i | 0 <= i < |w| ensures 0 <= cw[i] { MulNonNegative(c, w[i]); }
    var r, cr := Remainders(t, w), Remainders(t, cw);
    forall i | 0 <= i < |w|
      ensures Floors(t, cw)[i] == Floors(t, w)[i] && cr[i] == c * r[i]
    {
      MulSwap(t, c, w[i]);
      DivScales(t * w[i], Sum(w), c);
    }
    assert Floors(t, cw) == Floors(t, w);
    forall i | 0 <= i < |w| ensures Ahead(cr, i) == Ahead(r, i) {
      forall j | 0 <= j < |w| ensures Before(cr, j, i) <==> Before(r, j, i) {
        CompareScales(r[j], r[i], c);
      }
    }
    assert Bonus(cr, Left(t, cw)) == Bonus(r, Left(t, w));
  }

  lemma MulPositive(a: int, b: int)
    requires 0 < a && 0 < b
    ensures 0 < a * b
  {}

  lemma MulSwap(t: int, c: int, x: int)
    ensures t * (c * x) == c * (t * x)
  {}

  lemma CompareScales(a: int, b: int, c: int)
    requires 0 < c
    ensures c * a > c * b <==> a > b
    ensures c * a == c * b <==> a == b
  {
    if a > b { ScaleStrict(c, b, a); } else if a < b { ScaleStrict(c, a, b); }
  }

  lemma DivScales(a: int, b: int, c: int)
    requires 0 < b && 0 < c
    ensures 0 < c * b && (c * a) / (c * b) == a / b && (c * a) % (c * b) == c * (a % b)
  {
    MulPositive(c, b);
    DivMod(a, b);
    MulSwap(c, b, a / b);
    Distribute(c, b * (a / b), a % b);
    assert c * a == (c * b) * (a / b) + c * (a % b) by { MulAssoc(c, b, a / b); }
    MulNonNegative(c, a % b);
    ScaleStrict(c, a % b, b);
    DivUnique(c * a, c * b, a / b, c * (a % b));
  }

  lemma MulAssoc(a: int, b: int, c: int)
    ensures a * (b * c) == (a * b) * c
  {}

  lemma DivUnique(a: int, d: int, q: int, r: int)
    requires 0 < d && a == d * q + r && 0 <= r < d
    ensures a / d == q && a % d == r
  {
    DivMod(a, d);
    Distribute(d, q, -(a / d));
    Distribute(d, a / d, -q);
    NotNegative(q - a / d, d);
    NotNegative(a / d - q, d);
  }

  lemma {:induction false} SumScales(w: seq<int>, cw: seq<int>, c: int)
    requires |w| == |cw| && forall i :: 0 <= i < |w| ==> cw[i] == c * w[i]
    ensures Sum(cw) == c * Sum(w)
  {
    if w != [] {
      SumScales(w[..|w| - 1], cw[..|w| - 1], c);
      Distribute(c, Sum(w[..|w| - 1]), w[|w| - 1]);
    }
  }

  /** With no weight to go on the split is even to within one ngwee. */
  lemma EvenSplit(t: int, w: seq<int>)
    requires 0 <= t && w != [] && forall i :: 0 <= i < |w| ==> w[i] == 0
    ensures Apportion(t, w).Ok? && |Apportion(t, w).value| == |w| && Sum(Apportion(t, w).value) == t
    ensures forall i, j :: 0 <= i < j < |w| ==>
      Apportion(t, w).value[j] <= Apportion(t, w).value[i] <= Apportion(t, w).value[j] + 1
  {
    assert w == Zeros(|w|);
    SumZeros(|w|);
    SumOnes(|w|);
    if t > 0 {
      var e := Effective(w);
      EffectiveUsable(w);
      SharesExact(t, e);
      forall i, j | 0 <= i < j < |w|
        ensures Shares(t, e)[j] <= Shares(t, e)[i] <= Shares(t, e)[j] + 1
      {
        SharesFollowWeights(t, e, i, j);
      }
    }
  }

  /** Raising the total takes at most one ngwee from any line. */
  lemma RaisingTotal(t: int, t': int, w: seq<int>, i: int)
    requires 0 <= t <= t' && Usable(w) && 0 <= i < |w|
    ensures Shares(t', w)[i] >= Shares(t, w)[i] - 1
  {
    FloorsRise(t, t', w, i);
    RoundedUpRange(Floors(t, w), Remainders(t, w), Left(t, w), i);
    RoundedUpRange(Floors(t', w), Remainders(t', w), Left(t', w), i);
  }

  lemma FloorsRise(t: int, t': int, w: seq<int>, i: int)
    requires 0 <= t <= t' && Usable(w) && 0 <= i < |w|
    ensures Floors(t, w)[i] <= Floors(t', w)[i]
  {
    MulNonNegative(t' - t, w[i]);
    DivMonotone(t * w[i], t' * w[i], Sum(w));
  }

  /**
   It takes one from line i exactly when the line's floor stays where it is and the line, served
   with a left-over ngwee before, is now ranked behind the last one served.
   */
  lemma LoweredExactly(t: int, t': int, w: seq<int>, i: int)
    requires 0 <= t <= t' && Usable(w) && 0 <= i < |w|
    ensures Shares(t', w)[i] < Shares(t, w)[i] <==>
      (Floors(t', w)[i] == Floors(t, w)[i]
       && Rank(Remainders(t, w), i) < Left(t, w) && Left(t', w) <= Rank(Remainders(t', w), i))
  {
    FloorsRise(t, t', w, i);
    RoundedUpRange(Floors(t, w), Remainders(t, w), Left(t, w), i);
    RoundedUpRange(Floors(t', w), Remainders(t', w), Left(t', w), i);
  }

  /** ... and it can take one: at 10 ngwee over 6, 6, 2 the last line gets 2, at 11 it gets 1. */
  lemma RaisingTotalCanLower()
    ensures Usable([6, 6, 2])
    ensures Shares(10, [6, 6, 2])[2] == 2 && Shares(11, [6, 6, 2])[2] == 1
  {
    var w := [6, 6, 2];
    SumOfThree(6, 6, 2);
    SumOfThree(4, 4, 1);
    SixSixTwo(10);
    SixSixTwo(11);
    assert Floors(10, w) == [4, 4, 1] && Remainders(10, w) == [4, 4, 6];
    assert Floors(11, w) == [4, 4, 1] && Remainders(11, w) == [10, 10, 8];
    RankAt(10, w, [4, 4, 6]);
    RankAt(11, w, [10, 10, 8]);
  }

  lemma SumOfThree(a: int, b: int, c: int)
    ensures Sum([a, b, c]) == a + b + c
  {
    SumSnoc([], a);
    SumSnoc([a], b);
    SumSnoc([a, b], c);
    assert [a, b, c] == [a, b] + [c] && [a, b] == [a] + [b] && [a] == [] + [a];
  }

  lemma SixSixTwo(t: int)
    ensures Sum([6, 6, 2]) == 14
    ensures |Floors(t, [6, 6, 2])| == |Remainders(t, [6, 6, 2])| == 3
    ensures Floors(t, [6, 6, 2])[0] == Floors(t, [6, 6, 2])[1] == t * 6 / 14 && Floors(t, [6, 6, 2])[2] == t * 2 / 14
    ensures Remainders(t, [6, 6, 2])[0] == Remainders(t, [6, 6, 2])[1] == t * 6 % 14
    ensures Remainders(t, [6, 6, 2])[2] == t * 2 % 14
  {
    SumOfThree(6, 6, 2);
  }

  lemma RankAt(t: int, w: seq<int>, r: seq<int>)
    requires 0 < Sum(w) && |w| == 3 && r == Remainders(t, w)
    ensures r == [4, 4, 6] ==> Shares(t, w)[2] == Floors(t, w)[2] + (if 0 < Left(t, w) then 1 else 0)
    ensures r == [10, 10, 8] ==> Shares(t, w)[2] == Floors(t, w)[2] + (if 2 < Left(t, w) then 1 else 0)
  {
    RoundedUpRange(Floors(t, w), r, Left(t, w), 2);
    if r == [4, 4, 6] {
      assert Ahead(r, 2) == {};
    } else if r == [10, 10, 8] {
      assert Before(r, 0, 2) && Before(r, 1, 2);
      assert Ahead(r, 2) == {0, 1};
    }
  }

  // --- Optimality ------------------------------------------------------------

  function Abs(x: int): nat { if x < 0 then -x else x }

  /** How far a split is from exact proportion, each line scaled by the weight sum. */
  function Deviations(x: seq<int>, t: int, w: seq<int>): (d: seq<int>)
    requires |x| == |w|
    ensures |d| == |w|
  {
    seq(|w|, i requires 0 <= i < |w| => Abs(x[i] * Sum(w) - t * w[i]))
  }

  function Deviation(x: seq<int>, t: int, w: seq<int>): int
    requires |x| == |w|
  {
    Sum(Deviations(x, t, w))
  }

  /** A remainder that separates the lines that were rounded up from those that were not. */
  lemma Cutoff(t: int, w: seq<int>) returns (rho: int)
    requires 0 < Sum(w)
    ensures 0 <= rho <= Sum(w)
    ensures forall i :: 0 <= i < |w| ==>
      if Rank(Remainders(t, w), i) < Left(t, w) then Remainders(t, w)[i] >= rho
      else Remainders(t, w)[i] <= rho
  {
    var r, left := Remainders(t, w), Left(t, w);
    LeftOverFits(t, w);
    RemaindersInRange(t, w);
    if left == 0 {
      rho := Sum(w);
    } else {
      ServedSize(r, left - 1);
      var last := NextServed(r, left - 1);
      rho := r[last];
      forall i | 0 <= i < |w| ensures if Rank(r, i) < left then r[i] >= rho else r[i] <= rho {
        RankFollowsOrder(r, last, i);
        RankFollowsOrder(r, i, last);
      }
    }
  }

  /** d times the weight sum, and d times the cut-off, against each other. */
  lemma TimesCutoff(d: int, big: int, rho: int)
    requires 0 <= rho <= big
    ensures d >= 1 ==> d * big >= big && d * rho >= rho
    ensures d <= -1 ==> d * big <= -big && d * rho - d * big >= big - rho
    ensures d * (big - 2 * rho) == d * big - 2 * (d * rho)
  {
    Distribute(d, big, -2 * rho);
    TimesMinusTwo(d, rho);
    if d >= 1 {
      MulNonNegative(d - 1, big);
      MulNonNegative(d - 1, rho);
    } else if d <= -1 {
      MulNonNegative(-d - 1, big);
      MulNonNegative(-d - 1, big - rho);
      Distribute(-d - 1, big, -rho);
    }
  }

  lemma TimesMinusTwo(d: int, rho: int)
    ensures d * (-2 * rho) == -2 * (d * rho)
  {}

  /** The bound once the products are numbers: a is how far the share overshoots, dB and dR the products. */
  lemma OvershootBound(a: int, d: int, dB: int, dR: int, r: int, big: int, rho: int, up: bool)
    requires 0 <= r < big && 0 <= rho <= big && a == (if up then big - r else -r)
    requires if up then r >= rho else r <= rho
    requires d == 0 ==> dB == 0 && dR == 0
    requires d >= 1 ==> dB >= big && dR >= rho
    requires d <= -1 ==> dB <= -big && dR - dB >= big - rho
    ensures Abs(a + dB) >= Abs(a) + dB - 2 * dR
  {}

  /** One line: moving it d ngwee from its share costs at least d * (W - 2 * rho). */
  lemma LineBound(d: int, q: int, r: int, big: int, rho: int, up: bool)
    requires 0 <= r < big && 0 <= rho <= big
    requires if up then r >= rho else r <= rho
    ensures var s := if up then q + 1 else q;
            Abs((s + d) * big - (q * big + r)) >= Abs(s * big - (q * big + r)) + d * (big - 2 * rho)
  {
    var s := if up then q + 1 else q;
    Distribute(big, s, d);
    Distribute(big, q, 1);
    TimesCutoff(d, big, rho);
    OvershootBound(s * big - (q * big + r), d, d * big, d * rho, r, big, rho, up);
  }

  lemma ShareBound(t: int, w: seq<int>, x: seq<int>, i: int, rho: int, slope: int)
    requires Usable(w) && |x| == |w| && 0 <= i < |w| && 0 <= rho <= Sum(w) && slope == Sum(w) - 2 * rho
    requires if Rank(Remainders(t, w), i) < Left(t, w) then Remainders(t, w)[i] >= rho
             else Remainders(t, w)[i] <= rho
    ensures |Shares(t, w)| == |w|
    ensures Deviations(x, t, w)[i] >= Deviations(Shares(t, w), t, w)[i] + (x[i] - Shares(t, w)[i]) * slope
  {
    var big, left := Sum(w), Left(t, w);
    RoundedUpRange(Floors(t, w), Remainders(t, w), left, i);
    DivMod(t * w[i], big);
    LineBound(x[i] - Shares(t, w)[i], Floors(t, w)[i], Remainders(t, w)[i], big, rho,
              Rank(Remainders(t, w), i) < left);
  }

  /**
   Largest remainder is optimal: no split of the same total into whole ngwee, negative parts
   allowed, is closer to exact proportion.
   */
  lemma SharesOptimal(t: int, w: seq<int>, x: seq<int>)
    requires 0 <= t && Usable(w) && |x| == |w| && Sum(x) == t
    ensures Deviation(Shares(t, w), t, w) <= Deviation(x, t, w)
  {
    var rho := Cutoff(t, w);
    SharesExact(t, w);
    LineByLine(t, w, x, rho, Sum(w) - 2 * rho);
    SameTotalNoCloser(Deviations(x, t, w), Deviations(Shares(t, w), t, w), x, Shares(t, w),
                      Sum(w) - 2 * rho);
  }

  lemma LineByLine(t: int, w: seq<int>, x: seq<int>, rho: int, slope: int)
    requires Usable(w) && |x| == |w| && 0 <= rho <= Sum(w) && slope == Sum(w) - 2 * rho
    requires forall i :: 0 <= i < |w| ==>
      if Rank(Remainders(t, w), i) < Left(t, w) then Remainders(t, w)[i] >= rho
      else Remainders(t, w)[i] <= rho
    ensures |Shares(t, w)| == |w|
    ensures forall i :: 0 <= i < |w| ==>
      Deviations(x, t, w)[i] >= Deviations(Shares(t, w), t, w)[i] + (x[i] - Shares(t, w)[i]) * slope
  {
    forall i | 0 <= i < |w|
      ensures Deviations(x, t, w)[i] >= Deviations(Shares(t, w), t, w)[i] + (x[i] - Shares(t, w)[i]) * slope
    {
      ShareBound(t, w, x, i, rho, slope);
    }
  }

  lemma SameTotalNoCloser(dx: seq<int>, ds: seq<int>, x: seq<int>, s: seq<int>, slope: int)
    requires |dx| == |ds| == |x| == |s| && Sum(x) == Sum(s)
    requires forall i :: 0 <= i < |x| ==> dx[i] >= ds[i] + (x[i] - s[i]) * slope
    ensures Sum(dx) >= Sum(ds)
  {
    DeviationSums(dx, ds, x, s, slope);
  }

  lemma {:induction false} DeviationSums(dx: seq<int>, ds: seq<int>, x: seq<int>, s: seq<int>, slope: int)
    requires |dx| == |ds| == |x| == |s|
    requires forall i :: 0 <= i < |x| ==> dx[i] >= ds[i] + (x[i] - s[i]) * slope
    ensures Sum(dx) >= Sum(ds) + (Sum(x) - Sum(s)) * slope
  {
    if x != [] {
      var n := |x| - 1;
      DeviationSums(dx[..n], ds[..n], x[..n], s[..n], slope);
      Distribute(slope, Sum(x[..n]) - Sum(s[..n]), x[n] - s[n]);
      assert (Sum(x) - Sum(s)) * slope ==
        (Sum(x[..n]) - Sum(s[..n])) * slope + (x[n] - s[n]) * slope;
    }
  }

  // --- Machine integers --------------------------------------------------------

  /**
   When total * W fits in an int64 every intermediate value of the computation does: the scaled
   shares, the running weight and the running total placed.
   */
  lemma NoOverflow(t: int, w: seq<int>, k: nat)
    requires 0 < t && Usable(w) && k <= |w| && t * Sum(w) < 0x8000_0000_0000_0000
    ensures 0 <= Sum(w[..k]) < 0x8000_0000_0000_0000
    ensures k < |w| ==> 0 <= t * w[k] < 0x8000_0000_0000_0000
    ensures 0 <= Sum(Floors(t, w)[..k]) <= t < 0x8000_0000_0000_0000
  {
    MulAtLeast(t, Sum(w));
    MulAtLeast(Sum(w), t);
    PrefixSum(w, k);
    forall i | 0 <= i < |w| ensures 0 <= t * w[i] <= t * Sum(w) && 0 <= Floors(t, w)[i] {
      ScaledInRange(t, w, i);
    }
    LeftOverFits(t, w);
    PrefixSum(Floors(t, w), k);
  }

  lemma ScaledInRange(t: int, w: seq<int>, i: int)
    requires 0 <= t && Usable(w) && 0 <= i < |w|
    ensures 0 <= t * w[i] <= t * Sum(w) && 0 <= t * w[i] / Sum(w)
  {
    SumNonNegative(w);
    assert 0 <= w[i] <= Sum(w);
    MulBetween(t, w[i], Sum(w));
    DivNonNegative(t * w[i], Sum(w));
  }

  lemma MulBetween(t: int, a: int, b: int)
    requires 0 <= t && 0 <= a <= b
    ensures 0 <= t * a <= t * b
  {
    MulNonNegative(t, a);
    MulNonNegative(t, b - a);
    Distribute(t, a, b - a);
  }

  lemma MulAtLeast(a: int, b: int)
    requires 0 < a && 0 < b
    ensures a * b >= b
  {
    MulNonNegative(a - 1, b);
  }

  lemma {:induction false} PrefixSum(s: seq<int>, k: nat)
    requires k <= |s| && NonNegative(s)
    ensures 0 <= Sum(s[..k]) <= Sum(s)
    decreases |s| - k
  {
    SumNonNegative(s[..k]);
    if k == |s| {
      assert s[..k] == s;
    } else {
      PrefixSum(s, k + 1);
      assert s[..k + 1] == s[..k] + [s[k]];
      SumSnoc(s[..k], s[k]);
    }
  }
}
