/** Small shared vocabulary: optional values, results and finite sums. */
module Common {

  datatype Option<+T> = None | Some(value: T)

  datatype Result<+T, +E> = Ok(value: T) | Err(error: E)

  /** Sum of a sequence, recursing on the last element so that it follows a left-to-right loop. */
  function Sum(s: seq<int>): int {
    if s == [] then 0 else Sum(s[..|s| - 1]) + s[|s| - 1]
  }

  /** Sum of a sequence of reals. */
  function SumR(s: seq<real>): real {
    if s == [] then 0.0 else SumR(s[..|s| - 1]) + s[|s| - 1]
  }

  /** The positions of a sequence of length n. */
  function Indices(n: nat): (r: set<int>)
    ensures forall i :: i in r <==> 0 <= i < n
    ensures |r| == n
  {
    if n == 0 then {} else Indices(n - 1) + {n - 1}
  }

  lemma SubsetSize<T>(a: set<T>, b: set<T>)
    requires a <= b
    ensures |a| <= |b|
    ensures a != b ==> |a| < |b|
  {
    assert b == a + (b - a);
  }

  lemma SumSnoc(s: seq<int>, x: int)
    ensures Sum(s + [x]) == Sum(s) + x
  {
    assert (s + [x])[..|s|] == s;
  }

  lemma SumRSnoc(s: seq<real>, x: real)
    ensures SumR(s + [x]) == SumR(s) + x
  {
    assert (s + [x])[..|s|] == s;
  }

  /** The running totals of a sequence of figures. */
  ghost predicate Running(terms: seq<real>, totals: seq<real>) {
    |totals| == |terms| + 1 && totals[0] == 0.0
    && forall i :: 0 <= i < |terms| ==> totals[i + 1] == totals[i] + terms[i]
  }

  lemma {:induction false} RunningIsSum(terms: seq<real>, totals: seq<real>)
    requires Running(terms, totals)
    ensures totals[|terms|] == SumR(terms)
  {
    if terms != [] {
      var n := |terms| - 1;
      RunningIsSum(terms[..n], totals[..n + 1]);
    }
  }

  lemma {:induction false} RunningTotals(terms: seq<real>) returns (totals: seq<real>)
    ensures Running(terms, totals)
  {
    if terms == [] {
      totals := [0.0];
    } else {
      var n := |terms| - 1;
      var before := RunningTotals(terms[..n]);
      totals := before + [before[n] + terms[n]];
      forall i | 0 <= i < |terms| ensures totals[i + 1] == totals[i] + terms[i] {
        if i < n { assert terms[..n][i] == terms[i]; }
      }
    }
  }

  lemma {:induction false} SumNonNegative(s: seq<int>)
    requires forall i :: 0 <= i < |s| ==> 0 <= s[i]
    ensures 0 <= Sum(s)
    ensures forall i :: 0 <= i < |s| ==> s[i] <= Sum(s)
  {
    if s != [] {
      SumNonNegative(s[..|s| - 1]);
      forall i | 0 <= i < |s| ensures s[i] <= Sum(s) {
        if i < |s| - 1 { assert s[i] == s[..|s| - 1][i]; }
      }
    }
  }

  lemma {:induction false} SumPointwise(a: seq<int>, b: seq<int>)
    requires |a| == |b|
    requires forall i :: 0 <= i < |a| ==> a[i] <= b[i]
    ensures Sum(a) <= Sum(b)
  {
    if a != [] { SumPointwise(a[..|a| - 1], b[..|b| - 1]); }
  }

  /** A sequence that is 1 on a set of positions and 0 elsewhere sums to the size of the set. */
  lemma {:induction false} SumIndicator(s: seq<int>, on: set<int>)
    requires forall i :: i in on ==> 0 <= i < |s|
    requires forall i :: 0 <= i < |s| ==> s[i] == (if i in on then 1 else 0)
    ensures Sum(s) == |on|
  {
    if s == [] {
      assert forall i :: i !in on;
    } else {
      var last := |s| - 1;
      SumIndicator(s[..last], on - {last});
    }
  }
}
