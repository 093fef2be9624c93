/**
 The computation in internal/services/landedcost.go, on slices updated in place, proved against
 the specification in Apportionment.
 */
module LandedCost {
  import opened Common
  import opened Apportionment

  /** A line's index and the remainder it was owed but did not get. */
  datatype Slot = Slot(index: int, remainder: int)

  function Order(slots: seq<Slot>): (p: seq<int>)
    ensures |p| == |slots|
  {
    seq(|slots|, i requires 0 <= i < |slots| => slots[i].index)
  }

  ghost predicate Distinct(p: seq<int>) {
    forall a, b :: 0 <= a < b < |p| ==> p[a] != p[b]
  }

  ghost function Elements(p: seq<int>): set<int> {
    set x | x in p
  }

  lemma {:induction false} ElementsSize(p: seq<int>)
    requires Distinct(p)
    ensures |Elements(p)| == |p|
  {
    if p != [] {
      var q, last := p[..|p| - 1], p[|p| - 1];
      ElementsSize(q);
      assert p == q + [last];
      assert Elements(p) == Elements(q) + {last};
    }
  }

  /** In an arrangement of all lines in the order of service, position is rank. */
  lemma PositionIsRank(r: seq<int>, p: seq<int>, k: nat)
    requires |p| == |r| && Distinct(p) && k < |p|
    requires forall a :: 0 <= a < |p| ==> 0 <= p[a] < |r|
    requires forall a, b :: 0 <= a < b < |p| ==> Before(r, p[a], p[b])
    ensures Rank(r, p[k]) == k
  {
    ElementsSize(p);
    assert Elements(p) == Indices(|r|) by {
      assert Elements(p) <= Indices(|r|);
      SubsetSize(Elements(p), Indices(|r|));
    }
    ElementsSize(p[..k]);
    forall j | j in Indices(|r|) ensures j in Ahead(r, p[k]) <==> j in Elements(p[..k]) {
      assert j in Elements(p);
      var a :| 0 <= a < |p| && p[a] == j;
      if a < k {
        assert p[..k][a] == j && Before(r, p[a], p[k]);
      } else if k < a {
        assert Before(r, p[k], p[a]);
        assert j !in p[..k];
      } else {
        assert j !in p[..k];
      }
    }
    assert Ahead(r, p[k]) == Elements(p[..k]);
  }

  /** The order the hand-out needs: larger remainder first, equal remainders in line order. */
  predicate InOrder(a: Slot, b: Slot) {
    a.remainder > b.remainder || (a.remainder == b.remainder && a.index < b.index)
  }

  ghost predicate Ordered(s: seq<Slot>) {
    forall a, b :: 0 <= a < b < |s| ==> InOrder(s[a], s[b])
  }

  /** Every slot of s is the one `given` holds at that index; s uses indices below n only. */
  ghost predicate Drawn(s: seq<Slot>, given: seq<Slot>, n: int) {
    forall k :: 0 <= k < |s| ==> 0 <= s[k].index < n <= |given| && s[k] == given[s[k].index]
  }

  /**
   sort.SliceStable by descending remainder. Slots move forward only past a strictly smaller
   remainder, so equal ones keep the order they came in.
   */
  method SortByRemainder(slots: array<Slot>)
    requires forall k :: 0 <= k < slots.Length ==> slots[k].index == k
    modifies slots
    ensures Ordered(slots[..]) && Drawn(slots[..], old(slots[..]), slots.Length)
  {
    var i := 0;
    while i < slots.Length
      invariant 0 <= i <= slots.Length
      invariant Ordered(slots[..i]) && Drawn(slots[..i], old(slots[..]), i)
      invariant slots[i..] == old(slots[i..])
    {
      assert slots[i] == old(slots[..])[i] by { assert slots[i] == slots[i..][0]; }
      Sink(slots, i, old(slots[..]));
      i := i + 1;
    }
    assert slots[..slots.Length] == slots[..];
  }

  /** Moves slot i forward to its place among the i ordered slots before it. */
  method Sink(slots: array<Slot>, i: int, ghost given: seq<Slot>)
    requires 0 <= i < slots.Length && Ordered(slots[..i]) && Drawn(slots[..i], given, i)
    requires |given| == slots.Length && slots[i] == given[i] && given[i].index == i
    modifies slots
    ensures Ordered(slots[..i + 1]) && Drawn(slots[..i + 1], given, i + 1)
    ensures slots[i + 1..] == old(slots[i + 1..])
  {
    var j := i;
    ghost var was := slots[..];
    while 0 < j && slots[j - 1].remainder < slots[j].remainder
      invariant 0 <= j <= i
      invariant slots[j] == was[i]
      invariant forall k :: 0 <= k < j ==> slots[k] == was[k]
      invariant forall k :: j < k <= i ==> slots[k] == was[k - 1]
      invariant forall k :: i < k < slots.Length ==> slots[k] == was[k]
      invariant forall k :: j <= k < i ==> was[k].remainder < was[i].remainder
    {
      slots[j - 1], slots[j] := slots[j], slots[j - 1];
      j := j - 1;
    }
    Inserted(was, slots[..], j, i, given);
  }

  lemma Inserted(was: seq<Slot>, now: seq<Slot>, j: int, i: int, given: seq<Slot>)
    requires 0 <= j <= i < |was| == |now| == |given|
    requires Ordered(was[..i]) && Drawn(was[..i], given, i) && was[i] == given[i] && given[i].index == i
    requires now[j] == was[i] && (forall k :: 0 <= k < j ==> now[k] == was[k])
    requires forall k :: j < k <= i ==> now[k] == was[k - 1]
    requires forall k :: j <= k < i ==> was[k].remainder < was[i].remainder
    requires 0 < j ==> was[j - 1].remainder >= was[i].remainder
    ensures Ordered(now[..i + 1]) && Drawn(now[..i + 1], given, i + 1)
  {
    var w, s := was[..i], now[..i + 1];
    forall k | 0 <= k < |s|
      ensures 0 <= s[k].index < i + 1 && s[k] == given[s[k].index]
    {
      if k < j { assert s[k] == w[k]; } else if j < k { assert s[k] == w[k - 1]; }
    }
    forall a, b | 0 <= a < b < |s| ensures InOrder(s[a], s[b]) {
      if b < j { assert s[a] == w[a] && s[b] == w[b]; }
      else if b == j {
        assert s[a] == w[a] && w[j - 1] == was[j - 1];
        if a < j - 1 { assert InOrder(w[a], w[j - 1]); }
      }
      else if a < j { assert s[a] == w[a] && s[b] == w[b - 1]; }
      else if j < a { assert s[a] == w[a - 1] && s[b] == w[b - 1]; }
    }
  }

  /**
   ApportionNgwee. On success the shares are those of the specification; weights that were all
   zero have been overwritten with ones, and nothing else is written.
   */
  method ApportionNgwee(total: int, weights: array<int>)
    returns (out: array<int>, err: Option<ApportionError>)
    modifies weights
    ensures fresh(out)
    ensures match Apportion(total, old(weights[..]))
            case Ok(shares) => err == None && out[..] == shares
            case Err(e) => err == Some(e) && out.Length == 0
    ensures weights[..] ==
      if total > 0 && NonNegative(old(weights[..])) then Effective(old(weights[..]))
      else old(weights[..])
  {
    var n := weights.Length;
    ghost var given := weights[..];
    out := new int[0];
    if n == 0 { return out, Some(NoLinesToApportion); }
    if total < 0 { return out, Some(NegativeApportionment); }
    if total == 0 {
      out := new int[n](_ => 0);
      assert out[..] == Zeros(n);
      return out, None;
    }

    var totalWeight, i := 0, 0;
    while i < n
      invariant 0 <= i <= n
      invariant weights[..] == given && NonNegative(given[..i]) && totalWeight == Sum(given[..i])
    {
      if weights[i] < 0 {
        assert given[i] < 0;
        return out, Some(NegativeApportionment);
      }
      SumSnoc(given[..i], given[i]);
      assert given[..i + 1] == given[..i] + [given[i]];
      totalWeight, i := totalWeight + weights[i], i + 1;
    }
    assert given[..n] == given;
    EffectiveUsable(given);

    if totalWeight == 0 {
      i := 0;
      while i < n
        invariant 0 <= i <= n
        invariant forall k :: 0 <= k < i ==> weights[k] == 1
      {
        weights[i] := 1;
        i := i + 1;
      }
      SumOnes(n);
      assert weights[..] == Ones(n);
      totalWeight := n;
    }
    ghost var w := Effective(given);
    assert weights[..] == w && totalWeight == Sum(w);

    out := new int[n];
    var slots := new Slot[n];
    var placed := FloorShares(total, weights, totalWeight, out, slots, w);
    var left := total - placed;
    LeftOverFits(total, w);
    HandOut(total, w, left, out, slots);
    return out, None;
  }

  /** First pass: every line its floor share, and the remainder it is still owed. */
  method FloorShares(total: int, weights: array<int>, totalWeight: int, out: array<int>,
                     slots: array<Slot>, ghost w: seq<int>) returns (placed: int)
    requires weights.Length == out.Length == slots.Length && out != weights
    requires weights[..] == w && totalWeight == Sum(w) && 0 < Sum(w)
    modifies out, slots
    ensures placed == Sum(Floors(total, w)) && out[..] == Floors(total, w)
    ensures forall k :: 0 <= k < slots.Length ==> slots[k] == Slot(k, Remainders(total, w)[k])
  {
    ghost var f := Floors(total, w);
    var i := 0;
    placed := 0;
    while i < weights.Length
      invariant 0 <= i <= weights.Length
      invariant placed == Sum(f[..i])
      invariant forall k :: 0 <= k < i ==> out[k] == f[k]
      invariant forall k :: 0 <= k < i ==> slots[k] == Slot(k, Remainders(total, w)[k])
      invariant weights[..] == w
    {
      assert weights[i] == w[i];
      var exact := total * weights[i];
      var share := exact / totalWeight;
      out[i] := share;
      slots[i] := Slot(i, exact % totalWeight);
      SumSnoc(f[..i], f[i]);
      assert f[..i + 1] == f[..i] + [f[i]];
      placed, i := placed + share, i + 1;
    }
    assert f[..|w|] == f;
  }

  /** Second pass: sort, then one ngwee each to the lines at the front until none is left. */
  method HandOut(total: int, ghost w: seq<int>, left: int, out: array<int>, slots: array<Slot>)
    requires out.Length == slots.Length == |w| && 0 < Sum(w)
    requires left == Left(total, w) && 0 <= left <= |w| && out[..] == Floors(total, w)
    requires forall k :: 0 <= k < slots.Length ==> slots[k] == Slot(k, Remainders(total, w)[k])
    modifies out, slots
    ensures out[..] == Shares(total, w)
  {
    ghost var f, r := Floors(total, w), Remainders(total, w);
    ghost var before := slots[..];
    SortByRemainder(slots);
    SortedByRank(r, before, slots[..]);
    var i := 0;
    while i < left && i < slots.Length
      invariant 0 <= i <= left
      invariant forall k :: 0 <= k < slots.Length ==>
        0 <= slots[k].index < |r| && Rank(r, slots[k].index) == k
      invariant forall x :: 0 <= x < |r| ==> out[x] == f[x] + (if Rank(r, x) < i then 1 else 0)
    {
      forall x | 0 <= x < |r| && Rank(r, x) == i ensures x == slots[i].index {
        RankFollowsOrder(r, x, slots[i].index);
      }
      out[slots[i].index] := out[slots[i].index] + 1;
      i := i + 1;
    }
    forall x | 0 <= x < |r| ensures out[x] == Shares(total, w)[x] {
      RoundedUpRange(f, r, left, x);
    }
  }

  lemma SortedByRank(r: seq<int>, before: seq<Slot>, after: seq<Slot>)
    requires |before| == |r| == |after| && Ordered(after) && Drawn(after, before, |r|)
    requires forall k :: 0 <= k < |r| ==> before[k] == Slot(k, r[k])
    ensures forall k :: 0 <= k < |after| ==>
      0 <= after[k].index < |r| && Rank(r, after[k].index) == k
  {
    var p := Order(after);
    forall a, b | 0 <= a < b < |p| ensures Before(r, p[a], p[b]) && p[a] != p[b] {
      assert InOrder(after[a], after[b]);
    }
    forall k | 0 <= k < |after| ensures Rank(r, after[k].index) == k {
      PositionIsRank(r, p, k);
    }
  }

  // --- Kwacha and bases ------------------------------------------------------

  /** math.Round: to the nearest integer, halves away from zero. */
  function RoundHalfAway(x: real): int {
    if x >= 0.0 then (x + 0.5).Floor else -((0.5 - x).Floor)
  }

  function ToNgwee(kwacha: real): int { RoundHalfAway(kwacha * 100.0) }

  function FromNgwee(ngwee: int): real { ngwee as real / 100.0 }

  /** Whole ngwee survive the trip through kwacha, and rounding moves a figure half a ngwee at most. */
  lemma NgweeRoundTrip(n: int, kwacha: real)
    ensures ToNgwee(FromNgwee(n)) == n
    ensures -0.005 <= FromNgwee(ToNgwee(kwacha)) - kwacha <= 0.005
  {
    assert FromNgwee(n) * 100.0 == n as real;
  }

  datatype LineBasisWeight = LineBasisWeight(valueNgwee: int, quantity: int, weightGrams: int)

  const BasisValue := "value"
  const BasisQuantity := "quantity"
  const BasisWeight := "weight"

  predicate KnownBasis(basis: string) {
    basis == BasisValue || basis == BasisQuantity || basis == BasisWeight
  }

  function WeightOn(basis: string, l: LineBasisWeight): int {
    if basis == BasisValue then l.valueNgwee
    else if basis == BasisQuantity then l.quantity
    else l.weightGrams
  }

  function WeightsOn(basis: string, lines: seq<LineBasisWeight>): (w: seq<int>)
    ensures |w| == |lines|
  {
    seq(|lines|, i requires 0 <= i < |lines| => WeightOn(basis, lines[i]))
  }

  /** An unknown basis is noticed only when there is a line to read it for. */
  function ReceiptShares(basis: string, components: real, lines: seq<LineBasisWeight>)
    : (r: Result<seq<int>, ApportionError>)
  {
    if lines != [] && !KnownBasis(basis) then Err(UnknownBasis)
    else Apportion(ToNgwee(components), WeightsOn(basis, lines))
  }

  method BasisWeights(basis: string, lines: seq<LineBasisWeight>)
    returns (out: array<int>, err: Option<ApportionError>)
    ensures fresh(out)
    ensures err == if lines != [] && !KnownBasis(basis) then Some(UnknownBasis) else None
    ensures err == None ==> out[..] == WeightsOn(basis, lines)
    ensures err == None && basis == "value" ==> forall k :: 0 <= k < |lines| ==> out[k] == lines[k].valueNgwee
    ensures err == None && basis == "quantity" ==> forall k :: 0 <= k < |lines| ==> out[k] == lines[k].quantity
    ensures err == None && basis == "weight" ==> forall k :: 0 <= k < |lines| ==> out[k] == lines[k].weightGrams
  {
    out := new int[|lines|];
    err := None;
    var i := 0;
    while i < |lines|
      invariant 0 <= i <= |lines|
      invariant forall k :: 0 <= k < i ==> out[k] == WeightOn(basis, lines[k])
      invariant 0 < i ==> KnownBasis(basis)
    {
      var l := lines[i];
      if basis == BasisValue { out[i] := l.valueNgwee; }
      else if basis == BasisQuantity { out[i] := l.quantity; }
      else if basis == BasisWeight { out[i] := l.weightGrams; }
      else { return out, Some(UnknownBasis); }
      i := i + 1;
    }
    assert lines == [] ==> WeightsOn(basis, lines) == [];
  }

  ghost predicate Kwacha(out: seq<real>, shares: seq<int>) {
    |out| == |shares| && forall i :: 0 <= i < |out| ==> out[i] == FromNgwee(shares[i])
  }

  method ApportionReceipt(basis: string, componentsZMW: real, lines: seq<LineBasisWeight>)
    returns (out: array<real>, err: Option<ApportionError>)
    ensures match ReceiptShares(basis, componentsZMW, lines)
            case Err(e) => err == Some(e) && out.Length == 0
            case Ok(shares) => err == None && Kwacha(out[..], shares)
  {
    out := new real[0];
    var weights, werr := BasisWeights(basis, lines);
    if werr != None { return out, werr; }
    var shares, serr := ApportionNgwee(ToNgwee(componentsZMW), weights);
    if serr != None { return out, serr; }
    out := new real[shares.Length];
    var i := 0;
    while i < shares.Length
      invariant 0 <= i <= shares.Length
      invariant forall k :: 0 <= k < i ==> out[k] == FromNgwee(shares[k])
      invariant shares[..] == ReceiptShares(basis, componentsZMW, lines).value
    {
      out[i] := FromNgwee(shares[i]);
      i := i + 1;
    }
    return out, None;
  }

  /** A successful apportionment places the whole charge, to the ngwee, on every basis. */
  lemma ReceiptSharesExact(basis: string, components: real, lines: seq<LineBasisWeight>)
    requires ReceiptShares(basis, components, lines).Ok?
    ensures var shares := ReceiptShares(basis, components, lines).value;
            |shares| == |lines| && Sum(shares) == ToNgwee(components) && NonNegative(shares)
  {
    var t, w := ToNgwee(components), WeightsOn(basis, lines);
    if t == 0 {
      SumZeros(|w|);
    } else {
      EffectiveUsable(w);
      SharesExact(t, Effective(w));
    }
  }

  /** Exactly which receipts cannot be costed. */
  lemma ReceiptCostable(basis: string, components: real, lines: seq<LineBasisWeight>)
    ensures ReceiptShares(basis, components, lines).Ok? <==>
      && lines != [] && KnownBasis(basis) && 0 <= ToNgwee(components)
      && (ToNgwee(components) == 0 || forall l :: l in lines ==> 0 <= WeightOn(basis, l))
  {
    var w := WeightsOn(basis, lines);
    if lines != [] {
      assert NonNegative(w) <==> forall l :: l in lines ==> 0 <= WeightOn(basis, l) by {
        if NonNegative(w) {
          forall l | l in lines ensures 0 <= WeightOn(basis, l) {
            var i :| 0 <= i < |lines| && lines[i] == l;
            assert w[i] == WeightOn(basis, l);
          }
        }
      }
    }
  }

  /** The figure of each line that a basis splits on. */
  ghost predicate Weighed(basis: string, lines: seq<LineBasisWeight>, w: seq<int>) {
    |w| == |lines|
    && (basis == "value" ==> forall i :: 0 <= i < |w| ==> w[i] == lines[i].valueNgwee)
    && (basis == "quantity" ==> forall i :: 0 <= i < |w| ==> w[i] == lines[i].quantity)
    && (basis == "weight" ==> forall i :: 0 <= i < |w| ==> w[i] == lines[i].weightGrams)
  }

  /** By value, a charge is split on the lines' ngwee; by quantity on their units; by weight on their grams. */
  lemma SplitOnBasis(basis: string, components: real, lines: seq<LineBasisWeight>, w: seq<int>)
    requires basis in {"value", "quantity", "weight"} && Weighed(basis, lines, w)
    ensures ReceiptShares(basis, components, lines) == Apportion(ToNgwee(components), w)
  {
    assert WeightsOn(basis, lines) == w;
  }

  lemma MoreGetsMore(t: int, w: seq<int>, i: nat, j: nat)
    requires Apportion(t, w).Ok? && i < |w| && j < |w| && w[j] < w[i]
    ensures |Apportion(t, w).value| == |w| && Apportion(t, w).value[j] <= Apportion(t, w).value[i]
  {
    if t != 0 {
      SumNonNegative(w);
      assert Sum(w) != 0 && Effective(w) == w;
      EffectiveUsable(w);
      SharesExact(t, w);
      SharesFollowWeights(t, w, i, j);
    }
  }

  /** So on the chosen basis the line with more of it bears at least as much of the charge. */
  lemma MoreBearsMore(basis: string, components: real, lines: seq<LineBasisWeight>, w: seq<int>, i: nat, j: nat)
    requires basis in {"value", "quantity", "weight"} && Weighed(basis, lines, w)
    requires ReceiptShares(basis, components, lines).Ok? && i < |w| && j < |w| && w[j] < w[i]
    ensures var shares := ReceiptShares(basis, components, lines).value;
      |shares| == |w| && shares[j] <= shares[i]
  {
    SplitOnBasis(basis, components, lines, w);
    MoreGetsMore(ToNgwee(components), w, i, j);
  }

  /** Halves go away from zero, on either side of it. */
  lemma HalvesAway(n: nat, kwacha: real)
    ensures ToNgwee((n as real + 0.5) / 100.0) == n + 1
    ensures ToNgwee(-kwacha) == -ToNgwee(kwacha)
  {
    assert (n as real + 0.5) / 100.0 * 100.0 == n as real + 0.5;
  }
}
