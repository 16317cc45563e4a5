/** How a flush shares out the time between two instants among the calls of a batch. */
module Apportionment {
  import opened Texts
  import opened ThreadMachine

  /** The time each event of the batch is written at. */
  function Times(evs: seq<PendingEvent>, at: nat, left: nat): (times: seq<nat>)
    ensures |times| == |evs|
  {
    if evs == [] then []
    else var share := Share(evs, left); [at] + Times(evs[1..], at + share, left - share)
  }

  function Assemble(evs: seq<PendingEvent>, times: seq<nat>): seq<Entry>
    requires |times| == |evs| && forall i :: 0 <= i < |times| ==> times[i] < TWO_64
  {
    if evs == [] then [] else EntriesOf(evs[0], times[0]) + Assemble(evs[1..], times[1..])
  }

  /** The first `k` of `n` even shares of `total`: all shares are equal, except that the last
      `total % n` of them are one larger. */
  function EvenShares(total: nat, n: nat, k: nat): (sum: nat)
    requires k <= n
  {
    if n == 0 then 0 else k * (total / n) + Surplus(total, n, k)
  }

  function Surplus(total: nat, n: nat, k: nat): nat
    requires 0 < n
  {
    var plain := n - total % n;
    if k > plain then k - plain else 0
  }

  lemma {:induction false} CountCallsPrefix(evs: seq<PendingEvent>, i: nat)
    requires i <= |evs|
    ensures CountCalls(evs[..i]) <= CountCalls(evs)
    ensures i < |evs| && evs[i].PendingCall? ==> CountCalls(evs[..i]) < CountCalls(evs)
    decreases |evs|
  {
    if i > 0 {
      assert evs[..i][1..] == evs[1..][..i - 1];
      CountCallsPrefix(evs[1..], i - 1);
    }
  }

  lemma {:induction false} MultipleAtLeast(d: nat, n: nat)
    requires d > 0
    ensures d * n >= n
  {
    assert d * n == (d - 1) * n + n;
  }

  lemma {:induction false} DivMod(total: nat, n: nat, q: nat, r: nat)
    requires n > 0 && total == q * n + r && r < n
    ensures total / n == q && total % n == r
  {
    var q', r' := total / n, total % n;
    assert total == q' * n + r';
    if q' < q {
      assert (q - q') * n == q * n - q' * n;
      MultipleAtLeast(q - q', n);
    } else if q' > q {
      assert (q' - q) * n == q' * n - q * n;
      MultipleAtLeast(q' - q, n);
    }
  }

  lemma {:induction false} EvenSharesForm(total: nat, n: nat, k: nat, q: nat, r: nat)
    requires n > 0 && k <= n && total == q * n + r && r < n
    ensures EvenShares(total, n, k) == k * q + (if k > n - r then k - (n - r) else 0)
  {
    DivMod(total, n, q, r);
  }

  /** Taking the first share leaves even shares of the rest. */
  lemma {:induction false} FirstShare(total: nat, n: nat, k: nat)
    requires 0 < k <= n
    ensures total / n <= total
    ensures EvenShares(total, n, k) == total / n + EvenShares(total - total / n, n - 1, k - 1)
  {
    hide EvenShares;
    var q, r := Quotient(total, n), total % n;
    assert total == q * n + r;
    NoShares(total - q);
    Expand(n - 1, q);
    Expand(k - 1, q);
    EvenSharesForm(total, n, k, q, r);
    if r < n - 1 {
      EvenSharesForm(total - q, n - 1, k - 1, q, r);
    } else if n > 1 {
      EvenSharesForm(total - q, n - 1, k - 1, q + 1, 0);
    }
  }

  lemma {:induction false} NoShares(total: nat)
    ensures EvenShares(total, 0, 0) == 0
  {
  }

  lemma {:induction false} Expand(a: nat, q: nat)
    ensures q * (a + 1) == q * a + q && (a + 1) * q == a * q + q && (q + 1) * a == q * a + a && a * (q + 1) == a * q + a
  {
  }

  /** The loop over the batch computes the even shares. */
  lemma {:induction false} TimesAreEven(evs: seq<PendingEvent>, at: nat, total: nat, i: nat)
    requires i < |evs|
    ensures CountCalls(evs[..i]) <= CountCalls(evs)
    ensures Times(evs, at, total)[i] == at + EvenShares(total, CountCalls(evs), CountCalls(evs[..i]))
    decreases |evs|
  {
    CountCallsPrefix(evs, i);
    var share := Share(evs, total);
    if i > 0 {
      assert evs[..i][1..] == evs[1..][..i - 1];
      TimesAreEven(evs[1..], at + share, total - share, i - 1);
      if evs[0].PendingCall? {
        FirstShare(total, CountCalls(evs), CountCalls(evs[..i]));
      }
    }
  }

  lemma {:induction false} SpreadIsAssembled(evs: seq<PendingEvent>, at: Word64, left: nat)
    requires at + left < TWO_64
    ensures var times := Times(evs, at, left);
            (forall i :: 0 <= i < |times| ==> at <= times[i] <= at + left) &&
            Spread(evs, at, left) == Assemble(evs, times)
    decreases |evs|
  {
    if evs != [] {
      var share := Share(evs, left);
      SpreadIsAssembled(evs[1..], at + share, left - share);
      assert Times(evs, at, left)[1..] == Times(evs[1..], at + share, left - share);
    }
  }

  /** Even shares add up to the total, never shrink, and differ by at most one nanosecond. */
  lemma {:induction false} EvenSharesFair(total: nat, n: nat, k: nat)
    requires k < n
    ensures EvenShares(total, n, 0) == 0 && EvenShares(total, n, n) == total
    ensures var share := EvenShares(total, n, k + 1) - EvenShares(total, n, k);
            total / n <= share <= total / n + 1
    ensures k + 1 < n ==>
              EvenShares(total, n, k + 1) - EvenShares(total, n, k) <=
              EvenShares(total, n, k + 2) - EvenShares(total, n, k + 1)
  {
    var q, r := total / n, total % n;
    assert total == q * n + r;
    assert (k + 1) * q == k * q + q && (k + 2) * q == k * q + q + q;
  }

  // ----- Main result ------------------------------------------------------------------------

  /** Flushing any batch to any instant writes its events in order, each after the even shares of the
      calls before it, never before the batch's time nor after both that time and the target. */
  lemma {:induction false} FlushApportionment(t: ThreadState, to: Word64)
    returns (times: seq<nat>)
    requires t.pending != []
    ensures |times| == |t.pending|
    ensures forall i :: 0 <= i < |times| ==> t.pendingTime <= times[i] <= Max(t.pendingTime, to)
    ensures forall i, j :: 0 <= i < j < |times| ==> times[i] <= times[j]
    ensures Flush(t, to).written == t.written + Assemble(t.pending, times)
    ensures forall i :: 0 <= i < |times| ==>
              CountCalls(t.pending[..i]) <= CountCalls(t.pending) &&
              times[i] == t.pendingTime +
                          EvenShares(Max(t.pendingTime, to) - t.pendingTime, CountCalls(t.pending),
                            CountCalls(t.pending[..i]))
  {
    var total := Elapsed(t, to);
    times := Times(t.pending, t.pendingTime, total);
    SpreadIsAssembled(t.pending, t.pendingTime, total);
    forall i | 0 <= i < |times|
      ensures CountCalls(t.pending[..i]) <= CountCalls(t.pending)
      ensures times[i] == t.pendingTime + EvenShares(total, CountCalls(t.pending), CountCalls(t.pending[..i]))
    {
      TimesAreEven(t.pending, t.pendingTime, total, i);
    }
    TimesAscend(t.pending, t.pendingTime, total);
  }

  predicate Ascending(from: nat, times: seq<nat>) {
    (forall i :: 0 <= i < |times| ==> from <= times[i]) &&
    (forall i, j :: 0 <= i < j < |times| ==> times[i] <= times[j])
  }

  lemma {:induction false} TimesAscend(evs: seq<PendingEvent>, at: nat, left: nat)
    ensures Ascending(at, Times(evs, at, left))
    decreases |evs|
  {
    if evs != [] {
      var share := Share(evs, left);
      TimesAscend(evs[1..], at + share, left - share);
      assert Times(evs, at, left) == [at] + Times(evs[1..], at + share, left - share);
    }
  }
}
