/** Clock readings and the counting of recorded readings inside an interval of time. */
module Windows {

  type Time = real

  /** An interval of time, closed on the right and closed or open on the left. */
  datatype Span = Closed(lo: Time, hi: Time) | LeftOpen(lo: Time, hi: Time) {
    predicate Contains(t: Time) {
      t <= hi && if Closed? then lo <= t else lo < t
    }
  }

  /** How many of the first `n` readings lie in the span. */
  function CountTo(ts: seq<Time>, span: Span, n: nat): (c: nat)
    requires n <= |ts|
    ensures c <= n
  {
    if n == 0 then 0 else CountTo(ts, span, n - 1) + if span.Contains(ts[n - 1]) then 1 else 0
  }

  /** How many of the readings lie in the span. */
  function CountIn(ts: seq<Time>, span: Span): (c: nat)
    ensures c <= |ts|
  {
    CountTo(ts, span, |ts|)
  }

  predicate Sorted(ts: seq<Time>) {
    forall i, j :: 0 <= i < j < |ts| ==> ts[i] <= ts[j]
  }

  lemma {:induction false} CountAppended(a: seq<Time>, b: seq<Time>, span: Span, n: nat)
    requires n <= |a|
    ensures CountTo(a + b, span, n) == CountTo(a, span, n)
  {
    if n > 0 {
      CountAppended(a, b, span, n - 1);
    }
  }

  lemma {:induction false} CountSnoc(ts: seq<Time>, t: Time, span: Span)
    ensures CountIn(ts + [t], span) == CountIn(ts, span) + if span.Contains(t) then 1 else 0
  {
    CountAppended(ts, [t], span, |ts|);
  }

  lemma {:induction false} CountBeyond(a: seq<Time>, b: seq<Time>, span: Span, n: nat)
    requires n <= |b|
    ensures CountTo(a + b, span, |a| + n) == CountIn(a, span) + CountTo(b, span, n)
  {
    if n == 0 {
      CountAppended(a, b, span, |a|);
    } else {
      CountBeyond(a, b, span, n - 1);
    }
  }

  lemma {:induction false} CountNone(ts: seq<Time>, span: Span, n: nat)
    requires n <= |ts| && forall i :: 0 <= i < n ==> !span.Contains(ts[i])
    ensures CountTo(ts, span, n) == 0
  {
    if n > 0 {
      CountNone(ts, span, n - 1);
    }
  }

  lemma {:induction false} CountAll(ts: seq<Time>, span: Span, n: nat)
    requires n <= |ts| && forall i :: 0 <= i < n ==> span.Contains(ts[i])
    ensures CountTo(ts, span, n) == n
  {
    if n > 0 {
      CountAll(ts, span, n - 1);
    }
  }

  /** Readings that are dropped from the front without lying in the span do not change the count. */
  lemma {:induction false} CountSuffix(ts: seq<Time>, k: nat, span: Span)
    requires k <= |ts|
    requires forall i :: 0 <= i < k ==> !span.Contains(ts[i])
    ensures CountIn(ts, span) == CountIn(ts[k..], span)
  {
    CountNone(ts[..k], span, k);
    CountBeyond(ts[..k], ts[k..], span, |ts| - k);
    assert ts == ts[..k] + ts[k..];
  }

  /**
   * The pigeonhole step behind every rate limit here: when no reading and the one `cap` places later
   * fit into the span together, the span holds at most `cap` readings.
   */
  lemma {:induction false} SpacedCount(ts: seq<Time>, cap: nat, span: Span, n: nat)
    requires n <= |ts| && Sorted(ts)
    requires forall i, j :: 0 <= i && i + cap <= j < |ts| ==> !(span.Contains(ts[i]) && span.Contains(ts[j]))
    ensures CountTo(ts, span, n) <= cap
  {
    if n <= cap {
    } else if !span.Contains(ts[n - 1]) {
      SpacedCount(ts, cap, span, n - 1);
    } else {
      CountTail(ts, span, n - cap, n);
    }
  }

  /** When the last reading but `n - k` is not in the span, at most the rest is. */
  lemma {:induction false} CountTail(ts: seq<Time>, span: Span, k: nat, n: nat)
    requires k <= n <= |ts| && forall i :: 0 <= i < k ==> !span.Contains(ts[i])
    ensures CountTo(ts, span, n) <= n - k
  {
    if k == n {
      CountNone(ts, span, n);
    } else {
      CountTail(ts, span, k, n - 1);
    }
  }
}
