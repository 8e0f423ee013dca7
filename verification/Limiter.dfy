/** The sliding-window limiter in front of the login code endpoints: an in-place pruned log of
    hits per key, and the full history it must agree with. */
module Limiter {
  import opened Clock
  import opened SlidingWindow

  datatype Decision = Allowed | Refused(wait: int)

  datatype Outcome = Outcome(log: seq<Time>, decision: Decision)

  /** What one `take` does to one key's log. */
  function TakeHit(log: seq<Time>, limit: int, window: int, now: Time): (o: Outcome)
    requires limit >= 1
    ensures |log| <= limit ==> |o.log| <= limit
  {
    var kept := Live(log, now - window);
    if |kept| >= limit then
      var wait := window - (now - kept[0]);
      Outcome(kept, Refused(if wait < SECOND then SECOND else wait))
    else
      Outcome(kept + [now], Allowed)
  }

  /** A slice: the backing buffer and how much of it is in use. */
  datatype Slice = Slice(buf: array<Time>, len: nat)

  /** Filters the first `n` slots in place, writing survivors to the front of the same buffer
      that is still being read. */
  method Compact(buf: array<Time>, n: nat, cutoff: Time) returns (k: nat)
    requires n <= buf.Length
    modifies buf
    ensures k <= n
    ensures buf[..k] == Live(old(buf[..n]), cutoff)
  {
    k := 0;
    for i := 0 to n
      invariant k <= i
      invariant buf[..k] == Live(old(buf[..i]), cutoff)
      invariant forall j :: i <= j < n ==> buf[j] == old(buf[j])
    {
      assert old(buf[..i + 1]) == old(buf[..i]) + [old(buf[i])];
      LiveSnoc(old(buf[..i]), old(buf[i]), cutoff);
      if buf[i] > cutoff {
        buf[k] := buf[i];
        k := k + 1;
      }
    }
  }

  /** Appends one time to a slice, in place when the buffer has room and otherwise into a
      larger copy. */
  method Append(slice: Slice, t: Time) returns (longer: Slice)
    requires slice.len <= slice.buf.Length
    modifies slice.buf
    ensures longer.len == slice.len + 1 <= longer.buf.Length
    ensures longer.buf[..longer.len] == old(slice.buf[..slice.len]) + [t]
    ensures longer.buf == slice.buf || fresh(longer.buf)
  {
    var n := slice.len;
    if n < slice.buf.Length {
      slice.buf[n] := t;
      return Slice(slice.buf, n + 1);
    }
    var grown := new Time[2 * n + 1];
    forall i | 0 <= i < n {
      grown[i] := slice.buf[i];
    }
    grown[n] := t;
    return Slice(grown, n + 1);
  }

  class IPLimiter {
    const limit: int
    const window: int
    var hits: map<string, Slice>

    ghost predicate Valid()
      reads this
    {
      && limit >= 1
      && (forall k :: k in hits ==> hits[k].len <= hits[k].buf.Length)
      && (forall k, l :: k in hits && l in hits && k != l ==> hits[k].buf != hits[l].buf)
    }

    ghost function Buffers(): set<object>
      reads this
    {
      set k | k in hits :: hits[k].buf
    }

    /** The hits currently remembered for a key, oldest first. */
    ghost function Log(key: string): seq<Time>
      requires Valid()
      reads this, if key in hits then {hits[key].buf} else {}
    {
      if key in hits then hits[key].buf[..hits[key].len] else []
    }

    constructor (limit: int, window: int)
      requires limit >= 1
      ensures Valid() && this.limit == limit && this.window == window
      ensures hits == map[] && forall key :: Log(key) == []
    {
      this.limit := limit;
      this.window := window;
      hits := map[];
    }

    /** Compacts the slice of one key, starting an empty one if there is none. */
    method Prune(key: string, cutoff: Time)
      requires Valid()
      modifies this`hits, if key in hits then {hits[key].buf} else {}
      ensures Valid() && fresh(Buffers() - old(Buffers()))
      ensures key in hits && Log(key) == Live(old(Log(key)), cutoff)
      ensures key in old(hits) ==> hits[key].buf == old(hits[key].buf)
      ensures key !in old(hits) ==> fresh(hits[key].buf)
      ensures forall k :: k != key ==> (k in hits <==> k in old(hits)) && (k in hits ==> hits[k] == old(hits[k]))
      ensures forall k :: k != key ==> Log(k) == old(Log(k))
    {
      var slice: Slice;
      if key in hits {
        slice := hits[key];
      } else {
        var empty := new Time[0];
        slice := Slice(empty, 0);
      }
      assert slice.buf[..slice.len] == old(Log(key));
      var n := Compact(slice.buf, slice.len, cutoff);
      hits := hits[key := Slice(slice.buf, n)];
    }

    /** Records a hit at the end of a key's slice. */
    method Record(key: string, now: Time)
      requires Valid() && key in hits
      modifies this`hits, hits[key].buf
      ensures Valid() && fresh(Buffers() - old(Buffers()))
      ensures Log(key) == old(Log(key)) + [now]
      ensures forall k :: k != key ==> Log(k) == old(Log(k))
    {
      var longer := Append(hits[key], now);
      hits := hits[key := longer];
    }

    method Take(key: string, now: Time) returns (ok: bool, wait: int)
      requires Valid()
      modifies this`hits, if key in hits then {hits[key].buf} else {}
      ensures Valid() && fresh(Buffers() - old(Buffers()))
      ensures Log(key) == TakeHit(old(Log(key)), limit, window, now).log
      ensures TakeHit(old(Log(key)), limit, window, now).decision
           == if ok then Allowed else Refused(wait)
      ensures ok ==> wait == 0
      ensures forall k :: k != key ==> Log(k) == old(Log(k))
    {
      ghost var before := Log(key);
      Prune(key, now - window);
      var kept := hits[key];
      assert kept.buf[..kept.len] == Log(key) == Live(before, now - window);
      if kept.len >= limit {
        wait := window - (now - kept.buf[0]);
        if wait < SECOND {
          wait := SECOND;
        }
        assert TakeHit(before, limit, window, now) == Outcome(Log(key), Refused(wait));
        return false, wait;
      }
      assert TakeHit(before, limit, window, now) == Outcome(Log(key) + [now], Allowed);
      Record(key, now);
      return true, 0;
    }
  }

  // ----- runs -----------------------------------------------------------------------------

  datatype Hit = Hit(key: string, at: Time)

  predicate Ordered(run: seq<Hit>) {
    forall i, j :: 0 <= i < j < |run| ==> run[i].at <= run[j].at
  }

  predicate Before(run: seq<Hit>, now: Time) {
    forall i :: 0 <= i < |run| ==> run[i].at <= now
  }

  /** The pruned log kept for `key` once every attempt in `run` has been made. */
  function Kept(run: seq<Hit>, key: string, limit: int, window: int): seq<Time>
    requires limit >= 1
  {
    if run == [] then []
    else
      var front, last := run[..|run| - 1], run[|run| - 1];
      var log := Kept(front, key, limit, window);
      if last.key == key then TakeHit(log, limit, window, last.at).log else log
  }

  /** The full history: every attempt for `key` that was allowed, never pruned. */
  function History(run: seq<Hit>, key: string, limit: int, window: int): seq<Time>
    requires limit >= 1
  {
    if run == [] then []
    else
      var front, last := run[..|run| - 1], run[|run| - 1];
      var granted := History(front, key, limit, window);
      if last.key == key && TakeHit(Kept(front, key, limit, window), limit, window, last.at).decision.Allowed?
      then granted + [last.at] else granted
  }

  lemma {:induction false} HistoryOrdered(run: seq<Hit>, key: string, limit: int, window: int, now: Time)
    requires limit >= 1 && Ordered(run) && Before(run, now)
    ensures NonDecreasing(History(run, key, limit, window))
    ensures NoneAfter(History(run, key, limit, window), now)
  {
    if run != [] {
      HistoryOrdered(run[..|run| - 1], key, limit, window, run[|run| - 1].at);
    }
  }

  /** One attempt keeps the pruned log and the full history in agreement from then on. */
  lemma TakeKeepsAgreement(log: seq<Time>, granted: seq<Time>, limit: int, window: int, at: Time, now: Time)
    requires limit >= 1 && at <= now
    requires Live(log, at - window) == Live(granted, at - window)
    ensures TakeHit(log, limit, window, at).decision.Allowed? ==>
              Live(TakeHit(log, limit, window, at).log, now - window) == Live(granted + [at], now - window)
    ensures TakeHit(log, limit, window, at).decision.Refused? ==>
              Live(TakeHit(log, limit, window, at).log, now - window) == Live(granted, now - window)
  {
    var kept := Live(log, at - window);
    LiveLive(granted, at - window, now - window);
    assert Live(kept, now - window) == Live(granted, now - window);
    if |kept| < limit {
      var o := TakeHit(log, limit, window, at);
      assert o == Outcome(kept + [at], Allowed);
      SnocKeepsLive(kept, granted, at, now - window);
    }
  }

  lemma SnocKeepsLive(a: seq<Time>, b: seq<Time>, at: Time, cutoff: Time)
    requires Live(a, cutoff) == Live(b, cutoff)
    ensures Live(a + [at], cutoff) == Live(b + [at], cutoff)
  {
    LiveSnoc(a, at, cutoff);
    LiveSnoc(b, at, cutoff);
  }

  /** Every live hit survives pruning: at any time from now on the kept log and the full
      history show the same live hits. */
  lemma {:induction false} PruningLosesNoLiveHit(run: seq<Hit>, key: string, limit: int, window: int, now: Time)
    requires limit >= 1 && Ordered(run) && Before(run, now)
    ensures Live(Kept(run, key, limit, window), now - window)
         == Live(History(run, key, limit, window), now - window)
  {
    if run != [] {
      var front, last := run[..|run| - 1], run[|run| - 1];
      if last.key == key {
        PruningLosesNoLiveHit(front, key, limit, window, last.at);
        TakeKeepsAgreement(Kept(front, key, limit, window), History(front, key, limit, window),
                           limit, window, last.at, now);
      } else {
        PruningLosesNoLiveHit(front, key, limit, window, now);
      }
    }
  }

  /** Refinement: the pruned limiter allows an attempt exactly when the full history has fewer
      than `limit` allowed hits in the window ending now. */
  lemma TakeAgreesWithHistory(run: seq<Hit>, key: string, limit: int, window: int, now: Time)
    requires limit >= 1 && Ordered(run) && Before(run, now)
    ensures TakeHit(Kept(run, key, limit, window), limit, window, now).decision.Allowed?
       <==> WindowCount(History(run, key, limit, window), window, now) < limit
  {
    PruningLosesNoLiveHit(run, key, limit, window, now);
    HistoryOrdered(run, key, limit, window, now);
    LiveCount(History(run, key, limit, window), window, now);
  }

  /** Safety over whole runs: no window of the configured length, wherever it ends, ever holds
      more than `limit` allowed hits for one key. */
  lemma {:induction false} NoWindowOverBudget(run: seq<Hit>, key: string, limit: int, window: int)
    requires limit >= 1 && Ordered(run)
    ensures WithinBudget(History(run, key, limit, window), window, limit)
  {
    if run != [] {
      var front, last := run[..|run| - 1], run[|run| - 1];
      NoWindowOverBudget(front, key, limit, window);
      TakeAgreesWithHistory(front, key, limit, window, last.at);
      HistoryOrdered(front, key, limit, window, last.at);
      if last.key == key && TakeHit(Kept(front, key, limit, window), limit, window, last.at).decision.Allowed? {
        AppendKeepsBudget(History(front, key, limit, window), window, limit, last.at);
      }
    }
  }

  lemma {:induction false} KeptShape(run: seq<Hit>, key: string, limit: int, window: int, now: Time)
    requires limit >= 1 && Ordered(run) && Before(run, now)
    ensures NonDecreasing(Kept(run, key, limit, window))
    ensures NoneAfter(Kept(run, key, limit, window), now)
    ensures |Kept(run, key, limit, window)| <= limit
  {
    if run != [] {
      var front, last := run[..|run| - 1], run[|run| - 1];
      KeptShape(front, key, limit, window, last.at);
      LiveSorted(Kept(front, key, limit, window), last.at - window, last.at);
    }
  }

  /** A full log lets a hit through exactly when its oldest entry has left the window. */
  lemma FullLogAllows(log: seq<Time>, limit: int, window: int, retry: Time)
    requires limit >= 1 && |log| == limit && NonDecreasing(log)
    ensures TakeHit(log, limit, window, retry).decision.Allowed? <==> retry >= log[0] + window
  {
    if retry >= log[0] + window {
      DropsTheOldest(log, retry - window);
    } else {
      AllLive(log, retry - window);
    }
  }

  /** A refused attempt leaves exactly `limit` live hits, and a later one gets through exactly
      when the oldest of them has left the window. */
  lemma RefusalThenRetry(before: seq<Time>, limit: int, window: int, now: Time, retry: Time)
    requires limit >= 1 && |before| <= limit && now <= retry
    requires NonDecreasing(before) && NoneAfter(before, now)
    requires TakeHit(before, limit, window, now).decision.Refused?
    ensures var log := TakeHit(before, limit, window, now).log;
            && |log| == limit
            && log[0] + window > now
            && (TakeHit(log, limit, window, retry).decision.Allowed? <==> retry >= log[0] + window)
  {
    LiveSorted(before, now - window, now);
    FullLogAllows(Live(before, now - window), limit, window, retry);
  }

  lemma {:induction false} HistoryGrows(run: seq<Hit>, more: seq<Hit>, key: string, limit: int, window: int)
    requires limit >= 1
    ensures History(run, key, limit, window) <= History(run + more, key, limit, window)
  {
    if more == [] {
      assert run + more == run;
    } else {
      assert (run + more)[..|run + more| - 1] == run + more[..|more| - 1];
      HistoryGrows(run, more[..|more| - 1], key, limit, window);
    }
  }

  lemma {:induction false} LiveIsShorter(log: seq<Time>, cutoff: Time)
    ensures |Live(log, cutoff)| <= |log|
    ensures |Live(log, cutoff)| == |log| ==> Live(log, cutoff) == log
  {
    if log != [] {
      LiveIsShorter(log[..|log| - 1], cutoff);
    }
  }

  lemma OneMoreRefusal(run: seq<Hit>, last: Hit, key: string, limit: int, window: int)
    requires limit >= 1 && |Kept(run, key, limit, window)| == limit
    requires |History(run + [last], key, limit, window)| == |History(run, key, limit, window)|
    ensures Kept(run + [last], key, limit, window) == Kept(run, key, limit, window)
  {
    assert (run + [last])[..|run|] == run;
    LiveIsShorter(Kept(run, key, limit, window), last.at - window);
  }

  lemma PrefixBothWays(a: seq<Time>, b: seq<Time>, c: seq<Time>)
    requires a <= b <= c && c == a
    ensures b == a
  {
  }

  /** Attempts that are all refused leave a full log exactly as it is. */
  lemma {:induction false} RefusalsLeaveAFullLog(run: seq<Hit>, more: seq<Hit>, key: string, limit: int, window: int)
    requires limit >= 1 && |Kept(run, key, limit, window)| == limit
    requires History(run + more, key, limit, window) == History(run, key, limit, window)
    ensures Kept(run + more, key, limit, window) == Kept(run, key, limit, window)
  {
    if more == [] {
      assert run + more == run;
    } else {
      var front, last := more[..|more| - 1], more[|more| - 1];
      assert run + more == run + front + [last];
      HistoryGrows(run, front, key, limit, window);
      HistoryGrows(run + front, [last], key, limit, window);
      PrefixBothWays(History(run, key, limit, window), History(run + front, key, limit, window),
                     History(run + more, key, limit, window));
      RefusalsLeaveAFullLog(run, front, key, limit, window);
      OneMoreRefusal(run + front, last, key, limit, window);
    }
  }

  lemma RefusedHitIsKept(run: seq<Hit>, key: string, limit: int, window: int, now: Time)
    requires limit >= 1 && TakeHit(Kept(run, key, limit, window), limit, window, now).decision.Refused?
    ensures Kept(run + [Hit(key, now)], key, limit, window)
         == TakeHit(Kept(run, key, limit, window), limit, window, now).log
    ensures History(run + [Hit(key, now)], key, limit, window) == History(run, key, limit, window)
  {
    assert (run + [Hit(key, now)])[..|run|] == run;
  }

  /** Retry-After is honest in both directions.  After a refusal at `now`, and any further attempts
      by anyone of which none for that key is allowed, an attempt is allowed exactly when the oldest
      hit kept at the refusal has left the window; waiting the returned time is always enough, and
      only a wait rounded up to one second overstates it. */
  lemma RetryAfterIsExact(
    run: seq<Hit>, more: seq<Hit>, key: string, limit: int, window: int, now: Time, retry: Time)
    requires limit >= 1 && Ordered(run + [Hit(key, now)] + more) && Before(run + [Hit(key, now)] + more, retry)
    requires TakeHit(Kept(run, key, limit, window), limit, window, now).decision.Refused?
    requires History(run + [Hit(key, now)] + more, key, limit, window) == History(run, key, limit, window)
    ensures var first := TakeHit(Kept(run, key, limit, window), limit, window, now);
            var log := Kept(run + [Hit(key, now)] + more, key, limit, window);
            && |first.log| == limit
            && (TakeHit(log, limit, window, retry).decision.Allowed? <==> retry >= first.log[0] + window)
            && now + first.decision.wait >= first.log[0] + window
            && (first.decision.wait > SECOND ==> now + first.decision.wait == first.log[0] + window)
  {
    var all := run + [Hit(key, now)] + more;
    assert all[|run|] == Hit(key, now) && all[..|run|] == run;
    assert Ordered(run) && Before(run, now) by {
      forall i | 0 <= i < |run| ensures run[i].at <= now {
        assert all[i] == run[i];
      }
      forall i, j | 0 <= i < j < |run| ensures run[i].at <= run[j].at {
        assert all[i] == run[i] && all[j] == run[j];
      }
    }
    KeptShape(run, key, limit, window, now);
    RefusalThenRetry(Kept(run, key, limit, window), limit, window, now, retry);
    RefusedHitIsKept(run, key, limit, window, now);
    RefusalsLeaveAFullLog(run + [Hit(key, now)], more, key, limit, window);
  }

  lemma {:induction false} DropsTheOldest(log: seq<Time>, cutoff: Time)
    requires log != [] && log[0] <= cutoff
    ensures |Live(log, cutoff)| < |log|
  {
    if |log| > 1 {
      DropsTheOldest(log[..|log| - 1], cutoff);
    }
  }

  lemma {:induction false} AllLive(log: seq<Time>, cutoff: Time)
    requires forall i :: 0 <= i < |log| ==> log[i] > cutoff
    ensures Live(log, cutoff) == log
  {
    if log != [] {
      AllLive(log[..|log| - 1], cutoff);
    }
  }
}
