/**
 * Operations on one time series (a `seq<real>` indexed by time step): the
 * sum and mean numpy takes over the cell axis, the running sum behind
 * `np.cumsum`, elementwise scaling, and the first-index search behind
 * `np.where(x <= bound)[0][0]`.
 */
module Series {
  import opened Wrappers

  /** Sum of the elements, left to right. */
  function Sum(s: seq<real>): real
  {
    if |s| == 0 then 0.0 else s[0] + Sum(s[1..])
  }

  /** Arithmetic mean of a non-empty row (`np.mean` over one row). */
  function Mean(row: seq<real>): (m: real)
    requires |row| > 0
    ensures m * (|row| as real) == Sum(row)
  {
    Sum(row) / (|row| as real)
  }

  /** Every element multiplied by `k` (numpy's array-times-scalar). */
  function Scale(s: seq<real>, k: real): (r: seq<real>)
    ensures |r| == |s|
    ensures forall i :: 0 <= i < |s| ==> r[i] == s[i] * k
  {
    seq(|s|, i requires 0 <= i < |s| => s[i] * k)
  }

  /**
   * Running sum seeded with `acc`, carrying the total forward one element
   * at a time; `RunningSum(s, 0.0)` is `np.cumsum(s)`.
   */
  function RunningSum(s: seq<real>, acc: real): (r: seq<real>)
    ensures |r| == |s|
    ensures |s| > 0 ==> r[0] == acc + s[0]
    ensures |s| > 0 ==> r[|s| - 1] == acc + Sum(s)
  {
    if |s| == 0 then []
    else
      var head := acc + s[0];
      [head] + RunningSum(s[1..], head)
  }

  /** Element i of the running sum is `acc` plus the sum of the first i+1 inputs. */
  lemma {:induction false} RunningSumIsPrefixSum(s: seq<real>, acc: real, i: nat)
    requires i < |s|
    ensures RunningSum(s, acc)[i] == acc + Sum(s[..i + 1])
  {
    SumOfPrefixes(s);
    if i > 0 {
      RunningSumIsPrefixSum(s[1..], acc + s[0], i - 1);
    }
  }

  /** Index of the first element at or below `bound`, or None when there is none. */
  function FirstAtOrBelow(s: seq<real>, bound: real): (r: Option<nat>)
    ensures r.Some? ==> r.value < |s| && s[r.value] <= bound
    ensures r.Some? ==> forall j :: 0 <= j < r.value ==> s[j] > bound
    ensures r.None? ==> forall j :: 0 <= j < |s| ==> s[j] > bound
  {
    if |s| == 0 then None
    else if s[0] <= bound then Some(0)
    else
      match FirstAtOrBelow(s[1..], bound)
      case None => None
      case Some(k) => Some(k + 1)
  }

  /** Peeling the head off every non-empty prefix. */
  lemma SumOfPrefixes(s: seq<real>)
    requires |s| > 0
    ensures forall i :: 0 <= i < |s| ==> Sum(s[..i + 1]) == s[0] + Sum(s[1..][..i])
  {
    forall i | 0 <= i < |s|
      ensures Sum(s[..i + 1]) == s[0] + Sum(s[1..][..i])
    {
      assert s[..i + 1][1..] == s[1..][..i];
    }
  }

  lemma {:induction false} SumAppend(s: seq<real>, x: real)
    ensures Sum(s + [x]) == Sum(s) + x
  {
    if |s| == 0 {
      assert (s + [x])[1..] == [];
    } else {
      assert (s + [x])[1..] == s[1..] + [x];
      SumAppend(s[1..], x);
    }
  }

  /** Extending a prefix by one element adds that element to its sum. */
  lemma SumPrefixStep(s: seq<real>, i: nat)
    requires i < |s|
    ensures Sum(s[..i + 1]) == Sum(s[..i]) + s[i]
  {
    assert s[..i + 1] == s[..i] + [s[i]];
    SumAppend(s[..i], s[i]);
  }

  /** Scaling commutes with taking a prefix. */
  lemma ScaleTake(s: seq<real>, k: real, n: nat)
    requires n <= |s|
    ensures Scale(s, k)[..n] == Scale(s[..n], k)
  {
    forall j | 0 <= j < n
      ensures Scale(s, k)[..n][j] == Scale(s[..n], k)[j]
    {
    }
  }

  /** The sum of a prefix of the scaled series is the scaled sum of the prefix. */
  lemma SumScaleTake(s: seq<real>, k: real, n: nat)
    requires n <= |s|
    ensures Sum(Scale(s, k)[..n]) == k * Sum(s[..n])
  {
    var p := s[..n];
    ScaleTake(s, k, n);
    SumScale(p, k);
  }

  /** Summation is linear: scaling every element scales the sum. */
  lemma {:induction false} SumScale(s: seq<real>, k: real)
    ensures Sum(Scale(s, k)) == k * Sum(s)
  {
    if |s| > 0 {
      forall i | 0 <= i < |s| - 1
        ensures Scale(s, k)[1..][i] == Scale(s[1..], k)[i]
      {
        assert Scale(s, k)[1..][i] == Scale(s, k)[i + 1];
      }
      assert Scale(s, k)[1..] == Scale(s[1..], k);
      SumScale(s[1..], k);
    }
  }

  /** A lower bound on every element bounds the sum. */
  lemma {:induction false} SumLowerBound(s: seq<real>, lo: real)
    requires forall j :: 0 <= j < |s| ==> lo <= s[j]
    ensures (|s| as real) * lo <= Sum(s)
  {
    if |s| > 0 {
      SumLowerBound(s[1..], lo);
    }
  }

  /** An upper bound on every element bounds the sum. */
  lemma {:induction false} SumUpperBound(s: seq<real>, hi: real)
    requires forall j :: 0 <= j < |s| ==> s[j] <= hi
    ensures Sum(s) <= (|s| as real) * hi
  {
    if |s| > 0 {
      SumUpperBound(s[1..], hi);
    }
  }

  /** The sum of n copies of c is n times c. */
  lemma {:induction false} SumConstant(s: seq<real>, c: real)
    requires forall j :: 0 <= j < |s| ==> s[j] == c
    ensures Sum(s) == (|s| as real) * c
  {
    if |s| > 0 {
      SumConstant(s[1..], c);
    }
  }

  /** The mean of a row lies between any lower and upper bound of its cells. */
  lemma MeanBounds(row: seq<real>, lo: real, hi: real)
    requires |row| > 0
    requires forall j :: 0 <= j < |row| ==> lo <= row[j] <= hi
    ensures lo <= Mean(row) <= hi
  {
    SumLowerBound(row, lo);
    SumUpperBound(row, hi);
    var n := |row| as real;
    assert Mean(row) * n == Sum(row);
  }

  /** The mean of a row whose cells all hold c is c. */
  lemma MeanConstant(row: seq<real>, c: real)
    requires |row| > 0
    requires forall j :: 0 <= j < |row| ==> row[j] == c
    ensures Mean(row) == c
  {
    MeanBounds(row, c, c);
  }

  /** Over non-negative terms a longer prefix never has a smaller sum. */
  lemma PrefixSumMonotone(s: seq<real>, m: nat, n: nat)
    requires forall k :: 0 <= k < |s| ==> s[k] >= 0.0
    requires m <= n <= |s|
    ensures Sum(s[..m]) <= Sum(s[..n])
  {
    var k := m;
    while k < n
      invariant m <= k <= n
      invariant Sum(s[..m]) <= Sum(s[..k])
    {
      SumPrefixStep(s, k);
      k := k + 1;
    }
  }
}
