/**
 * The thermochron curve of a season's daily highs: for each streak length k,
 * the lowest threshold T such that some run of k consecutive days never had
 * a high above T — the minimum, over every k-day window, of the window's
 * maximum.
 */
module Thermochron {

  function Max(a: real, b: real): real { if a >= b then a else b }
  function Min(a: real, b: real): real { if a <= b then a else b }

  /** The smallest element. */
  function SeqMin(xs: seq<real>): (m: real)
    requires |xs| > 0
    ensures m in xs
    ensures forall i :: 0 <= i < |xs| ==> m <= xs[i]
  {
    if |xs| == 1 then xs[0] else Min(SeqMin(xs[..|xs| - 1]), xs[|xs| - 1])
  }

  /** The largest of the `k` highs from day `s` on. */
  function WindowMax(highs: seq<real>, s: nat, k: nat): (m: real)
    requires 1 <= k && s + k <= |highs|
    ensures forall j :: s <= j < s + k ==> highs[j] <= m
    ensures exists j :: s <= j < s + k && highs[j] == m
  {
    if k == 1 then highs[s] else Max(WindowMax(highs, s, k - 1), highs[s + k - 1])
  }

  /** The maxima of every `k`-day window, by first day. */
  function WindowMaxima(highs: seq<real>, k: nat): (r: seq<real>)
    requires 1 <= k <= |highs|
    ensures |r| == |highs| - k + 1
  {
    seq(|highs| - k + 1, s requires 0 <= s < |highs| - k + 1 => WindowMax(highs, s, k))
  }

  /** thermochron(k). */
  function ThermochronAt(highs: seq<real>, k: nat): real
    requires 1 <= k <= |highs|
  {
    SeqMin(WindowMaxima(highs, k))
  }

  /** The index of an element equal to the minimum. */
  lemma SeqMinAt(xs: seq<real>) returns (i: nat)
    requires |xs| > 0
    ensures i < |xs| && xs[i] == SeqMin(xs)
  {
    var m := SeqMin(xs);
    i :| 0 <= i < |xs| && xs[i] == m;
  }

  /** The minimum of a sequence, by a scan. */
  method MinOf(xs: seq<real>) returns (m: real)
    requires |xs| > 0
    ensures m == SeqMin(xs)
  {
    m := xs[0];
    for i := 1 to |xs|
      invariant m == SeqMin(xs[..i])
    {
      assert xs[..i + 1][..i] == xs[..i];
      m := Min(m, xs[i]);
    }
    assert xs[..|xs|] == xs;
  }

  /** The maximum of every `k`-day window, each by a scan of the window. */
  method SlidingWindowMaxima(highs: seq<real>, k: nat) returns (maxima: seq<real>)
    requires 1 <= k <= |highs|
    ensures maxima == WindowMaxima(highs, k)
  {
    maxima := [];
    for s := 0 to |highs| - k + 1
      invariant |maxima| == s
      invariant forall t :: 0 <= t < s ==> maxima[t] == WindowMax(highs, t, k)
    {
      var m := highs[s];
      for j := 1 to k
        invariant m == WindowMax(highs, s, j)
      {
        m := Max(m, highs[s + j]);
      }
      maxima := maxima + [m];
    }
  }

  /**
   * `compute_thermochron`: the window lengths 1..n and, for each, the
   * minimum window maximum (the minimum high when k is 1); two empty lists
   * for an empty season.
   */
  method ComputeThermochron(highs: seq<real>) returns (kValues: seq<int>, values: seq<real>)
    ensures |kValues| == |highs| && |values| == |highs|
    ensures forall i :: 0 <= i < |highs| ==> kValues[i] == i + 1 && values[i] == ThermochronAt(highs, i + 1)
  {
    kValues, values := [], [];
    var n := |highs|;
    if n == 0 {
      return;
    }
    for k := 1 to n + 1
      invariant |kValues| == k - 1 && |values| == k - 1
      invariant forall i :: 0 <= i < k - 1 ==> kValues[i] == i + 1 && values[i] == ThermochronAt(highs, i + 1)
    {
      var best := ThermochronFor(highs, k);
      kValues := kValues + [k];
      values := values + [best];
    }
  }

  /** One point of the curve: the minimum high when `k` is 1, else the minimum window maximum. */
  method ThermochronFor(highs: seq<real>, k: nat) returns (best: real)
    requires 1 <= k <= |highs|
    ensures best == ThermochronAt(highs, k)
  {
    if k == 1 {
      best := MinOf(highs);
      assert WindowMaxima(highs, 1) == highs;
    } else {
      var maxima := SlidingWindowMaxima(highs, k);
      best := MinOf(maxima);
    }
  }

  // ---------------------------------------------------------------------------
  // What the curve means
  // ---------------------------------------------------------------------------

  /** No high of the `k` days from day `s` on exceeds `t`. */
  predicate StreakAtMost(highs: seq<real>, s: nat, k: nat, t: real)
    requires s + k <= |highs|
  {
    forall j :: s <= j < s + k ==> highs[j] <= t
  }

  /**
   * The definition the curve is named for: some `k`-day streak stays at or
   * below `t` exactly when `t` is at least thermochron(k).
   */
  lemma ThermochronIsLowestStreakThreshold(highs: seq<real>, k: nat, t: real)
    requires 1 <= k <= |highs|
    ensures (exists s :: 0 <= s <= |highs| - k && StreakAtMost(highs, s, k, t)) <==> ThermochronAt(highs, k) <= t
  {
    var maxima := WindowMaxima(highs, k);
    if exists s :: 0 <= s <= |highs| - k && StreakAtMost(highs, s, k, t) {
      var s :| 0 <= s <= |highs| - k && StreakAtMost(highs, s, k, t);
      var j :| s <= j < s + k && highs[j] == WindowMax(highs, s, k);
      assert maxima[s] == WindowMax(highs, s, k);
    }
    if ThermochronAt(highs, k) <= t {
      var s := SeqMinAt(maxima);
      assert StreakAtMost(highs, s, k, t);
    }
  }

  /** Longer streaks need a threshold at least as high: the curve never decreases. */
  lemma ThermochronNonDecreasing(highs: seq<real>, k: nat)
    requires 1 <= k < |highs|
    ensures ThermochronAt(highs, k) <= ThermochronAt(highs, k + 1)
  {
    var longer := WindowMaxima(highs, k + 1);
    var s := SeqMinAt(longer);
    assert longer[s] == WindowMax(highs, s, k + 1) == Max(WindowMax(highs, s, k), highs[s + k]);
    assert WindowMaxima(highs, k)[s] == WindowMax(highs, s, k);
  }

  /** The curve runs from the season's lowest high (k = 1) to its highest (k = n). */
  lemma ThermochronEnds(highs: seq<real>)
    requires |highs| > 0
    ensures ThermochronAt(highs, 1) == SeqMin(highs)
    ensures forall j :: 0 <= j < |highs| ==> highs[j] <= ThermochronAt(highs, |highs|)
    ensures ThermochronAt(highs, |highs|) in highs
  {
    assert WindowMaxima(highs, 1) == highs;
    var all := WindowMaxima(highs, |highs|);
    assert all == [WindowMax(highs, 0, |highs|)];
  }
}
