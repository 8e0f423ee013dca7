/** Counting over half-open time windows, shared by the request limiter and the login-code
    budget. */
module SlidingWindow {
  import opened Clock

  /** The entries of `log` strictly after `cutoff`, in order. */
  function Live(log: seq<Time>, cutoff: Time): (live: seq<Time>)
    ensures |live| <= |log|
  {
    if log == [] then []
    else
      var rest := Live(log[..|log| - 1], cutoff);
      var last := log[|log| - 1];
      if last > cutoff then rest + [last] else rest
  }

  /** How many entries of `log` lie in the window (end - window, end]. */
  function WindowCount(log: seq<Time>, window: int, end: Time): nat {
    if log == [] then 0
    else
      WindowCount(log[..|log| - 1], window, end) +
      if end - window < log[|log| - 1] <= end then 1 else 0
  }

  predicate NonDecreasing(log: seq<Time>) {
    forall i, j :: 0 <= i < j < |log| ==> log[i] <= log[j]
  }

  predicate NoneAfter(log: seq<Time>, now: Time) {
    forall i :: 0 <= i < |log| ==> log[i] <= now
  }

  /** No window of this length, wherever it ends, holds more than `limit` entries. */
  ghost predicate WithinBudget(log: seq<Time>, window: int, limit: int) {
    forall end :: WindowCount(log, window, end) <= limit
  }

  lemma {:induction false} LiveCount(log: seq<Time>, window: int, now: Time)
    requires NoneAfter(log, now)
    ensures |Live(log, now - window)| == WindowCount(log, window, now)
  {
    if log != [] {
      LiveCount(log[..|log| - 1], window, now);
    }
  }

  /** Pruning at an early cutoff is invisible to a reader that prunes at a later one. */
  lemma {:induction false} LiveLive(log: seq<Time>, early: Time, late: Time)
    requires early <= late
    ensures Live(Live(log, early), late) == Live(log, late)
  {
    if log != [] {
      var front, last := log[..|log| - 1], log[|log| - 1];
      LiveLive(front, early, late);
      if last > early {
        LiveSnoc(Live(front, early), last, late);
      }
    }
  }

  lemma LiveSnoc(log: seq<Time>, t: Time, cutoff: Time)
    ensures Live(log + [t], cutoff) == Live(log, cutoff) + if t > cutoff then [t] else []
  {
    assert (log + [t])[..|log|] == log;
  }

  lemma {:induction false} LiveSorted(log: seq<Time>, cutoff: Time, now: Time)
    requires NonDecreasing(log) && NoneAfter(log, now)
    ensures NonDecreasing(Live(log, cutoff)) && NoneAfter(Live(log, cutoff), now)
    ensures forall i :: 0 <= i < |Live(log, cutoff)| ==> Live(log, cutoff)[i] > cutoff
  {
    if log != [] {
      LiveSorted(log[..|log| - 1], cutoff, log[|log| - 1]);
    }
  }

  /** A window that ends after everything that happened reaches back no further than the one
      ending at `now`. */
  lemma {:induction false} LaterWindowHoldsNoMore(log: seq<Time>, window: int, now: Time, end: Time)
    requires NoneAfter(log, now) && now <= end
    ensures WindowCount(log, window, end) <= WindowCount(log, window, now)
  {
    if log != [] {
      LaterWindowHoldsNoMore(log[..|log| - 1], window, now, end);
    }
  }

  lemma WindowCountSnoc(log: seq<Time>, t: Time, window: int, end: Time)
    ensures WindowCount(log + [t], window, end)
         == WindowCount(log, window, end) + if end - window < t <= end then 1 else 0
  {
    assert (log + [t])[..|log|] == log;
  }

  /** Admitting one more entry when the window ending now has room keeps every window of that
      length within budget, not only the one that was looked at. */
  lemma AppendKeepsBudget(log: seq<Time>, window: int, limit: int, now: Time)
    requires NoneAfter(log, now)
    requires WithinBudget(log, window, limit)
    requires WindowCount(log, window, now) < limit
    ensures WithinBudget(log + [now], window, limit)
  {
    forall end ensures WindowCount(log + [now], window, end) <= limit {
      WindowCountSnoc(log, now, window, end);
      if now <= end {
        LaterWindowHoldsNoMore(log, window, now, end);
      }
    }
  }

  lemma {:induction false} WindowCountConcat(a: seq<Time>, b: seq<Time>, window: int, end: Time)
    ensures WindowCount(a + b, window, end) == WindowCount(a, window, end) + WindowCount(b, window, end)
  {
    if b == [] {
      assert a + b == a;
    } else {
      assert (a + b)[..|a + b| - 1] == a + b[..|b| - 1];
      WindowCountConcat(a, b[..|b| - 1], window, end);
    }
  }
}
