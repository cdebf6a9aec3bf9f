/** How sums over the transfers table change when rows are added or flipped. */
module Sums {
  import opened Ledger

  lemma SumAppend(ts: seq<Transfer>, t: Transfer, f: Transfer -> int)
    ensures Sum(ts + [t], f) == Sum(ts, f) + f(t)
  {
    assert (ts + [t])[..|ts|] == ts;
  }

  lemma {:induction false} SumUpdate(ts: seq<Transfer>, k: nat, t: Transfer, f: Transfer -> int)
    requires k < |ts|
    ensures Sum(ts[k := t], f) == Sum(ts, f) - f(ts[k]) + f(t)
  {
    var n := |ts| - 1;
    if k == n {
      assert ts[k := t][..n] == ts[..n];
    } else {
      assert ts[k := t][..n] == ts[..n][k := t];
      SumUpdate(ts[..n], k, t, f);
    }
  }

  /** Rows that do not weigh anything may be added, and weightless fields changed. */
  lemma {:induction false} SumStable(ts: seq<Transfer>, ts': seq<Transfer>, f: Transfer -> int)
    requires |ts| <= |ts'|
    requires forall i :: 0 <= i < |ts| ==> f(ts'[i]) == f(ts[i])
    requires forall i :: |ts| <= i < |ts'| ==> f(ts'[i]) == 0
    ensures Sum(ts', f) == Sum(ts, f)
  {
    var n := |ts'| - 1;
    if |ts| < |ts'| {
      SumStable(ts, ts'[..n], f);
    } else if ts != [] {
      SumStable(ts[..n], ts'[..n], f);
    }
  }

  lemma {:induction false} SumMonotone(ts: seq<Transfer>, f: Transfer -> int, g: Transfer -> int)
    requires forall i :: 0 <= i < |ts| ==> f(ts[i]) <= g(ts[i])
    ensures Sum(ts, f) <= Sum(ts, g)
  {
    if ts != [] {
      SumMonotone(ts[..|ts| - 1], f, g);
    }
  }

  /** If row `k` weighs `d` more under `g` and no row weighs less, the sum is at least `d` more. */
  lemma {:induction false} SumGains(ts: seq<Transfer>, f: Transfer -> int, g: Transfer -> int, k: nat)
    requires k < |ts|
    requires forall i :: 0 <= i < |ts| ==> f(ts[i]) <= g(ts[i])
    ensures Sum(ts, f) + g(ts[k]) - f(ts[k]) <= Sum(ts, g)
  {
    var n := |ts| - 1;
    if k == n {
      SumMonotone(ts[..n], f, g);
    } else {
      SumGains(ts[..n], f, g, k);
    }
  }

  function Nothing(): Transfer -> int { (t: Transfer) => 0 }

  lemma {:induction false} SumNothing(ts: seq<Transfer>)
    ensures Sum(ts, Nothing()) == 0
  {
    if ts != [] { SumNothing(ts[..|ts| - 1]); }
  }

  lemma SumZero(ts: seq<Transfer>, f: Transfer -> int)
    requires forall i :: 0 <= i < |ts| ==> f(ts[i]) == 0
    ensures Sum(ts, f) == 0
  {
    SumStable([], ts, f);
  }

  lemma SumNonNegative(ts: seq<Transfer>, f: Transfer -> int)
    requires forall i :: 0 <= i < |ts| ==> 0 <= f(ts[i])
    ensures 0 <= Sum(ts, f)
  {
    SumNothing(ts);
    SumMonotone(ts, Nothing(), f);
  }
}
