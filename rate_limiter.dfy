/**
 * The sliding-window rate limiter: a list of call times, pruned to the last
 * `period` seconds on every `wait`; when `calls` of them remain, the caller
 * sleeps until the oldest leaves the window and that one is dropped.
 *
 * The clock read (`time.time()`) is the parameter `now`, and `time.sleep` is
 * not performed: `wait` reports how long it would sleep.
 */
module RateLimiting {

  /** What one `wait` does: sleep the given seconds (0 for no sleep), or fail on `self.timestamps[0]` of an empty list. */
  datatype WaitOutcome = Waited(sleep: real) | IndexError

  /** `[ts for ts in timestamps if ts > cutoff]` */
  function Prune(ts: seq<real>, cutoff: real): seq<real>
    decreases |ts|
  {
    if ts == [] then [] else (if ts[0] > cutoff then [ts[0]] else []) + Prune(ts[1..], cutoff)
  }

  predicate Sorted(ts: seq<real>) {
    forall i, j :: 0 <= i < j < |ts| ==> ts[i] <= ts[j]
  }

  /** Pruning keeps exactly the times after the cutoff. */
  lemma {:induction false} PruneMembers(ts: seq<real>, cutoff: real)
    ensures |Prune(ts, cutoff)| <= |ts|
    ensures forall x :: x in Prune(ts, cutoff) <==> x in ts && x > cutoff
    decreases |ts|
  {
    if ts != [] {
      PruneMembers(ts[1..], cutoff);
      assert ts == [ts[0]] + ts[1..];
    }
  }

  /** A time is no greater than every time after it in `ts`. */
  predicate Below(x: real, ts: seq<real>) {
    forall i :: 0 <= i < |ts| ==> x <= ts[i]
  }

  lemma SortedCons(x: real, ts: seq<real>)
    requires Sorted(ts) && Below(x, ts)
    ensures Sorted([x] + ts)
  {
    var s := [x] + ts;
    forall i, j | 0 <= i < j < |s| ensures s[i] <= s[j] {
      assert s[j] == ts[j - 1];
      if i > 0 {
        assert s[i] == ts[i - 1];
      }
    }
  }

  lemma PruneBelow(x: real, ts: seq<real>, cutoff: real)
    requires Below(x, ts)
    ensures Below(x, Prune(ts, cutoff))
  {
    PruneMembers(ts, cutoff);
    forall i | 0 <= i < |Prune(ts, cutoff)| ensures x <= Prune(ts, cutoff)[i] {
      var y := Prune(ts, cutoff)[i];
      assert y in ts;
    }
  }

  /** Pruning keeps the surviving times in their order, so a sorted list stays sorted. */
  lemma {:induction false} PruneSorted(ts: seq<real>, cutoff: real)
    requires Sorted(ts)
    ensures Sorted(Prune(ts, cutoff))
    decreases |ts|
  {
    if ts != [] {
      var rest := ts[1..];
      assert Sorted(rest) by {
        forall i, j | 0 <= i < j < |rest| ensures rest[i] <= rest[j] {
          assert rest[i] == ts[i + 1] && rest[j] == ts[j + 1];
        }
      }
      PruneSorted(rest, cutoff);
      if ts[0] > cutoff {
        assert Below(ts[0], rest) by {
          forall i | 0 <= i < |rest| ensures ts[0] <= rest[i] {
            assert rest[i] == ts[i + 1];
          }
        }
        PruneBelow(ts[0], rest, cutoff);
        SortedCons(ts[0], Prune(rest, cutoff));
      } else {
        assert Prune(ts, cutoff) == Prune(rest, cutoff);
      }
    }
  }

  /** The whole of one `wait`: the new timestamp list and what the call did. */
  function WaitStep(ts: seq<real>, calls: int, period: int, now: real): (seq<real>, WaitOutcome) {
    var kept := Prune(ts, now - period as real);
    if |kept| >= calls then
      if kept == [] then (kept, IndexError)
      else
        var waitTime := kept[0] - (now - period as real);
        (kept[1..] + [now], Waited(if waitTime > 0.0 then waitTime else 0.0))
    else (kept + [now], Waited(0.0))
  }

  /** `wait` fails only when `calls` is not positive and no recent call is on record. */
  lemma WaitFails(ts: seq<real>, calls: int, period: int, now: real)
    ensures WaitStep(ts, calls, period, now).1 == IndexError <==> calls <= 0 && Prune(ts, now - period as real) == []
  {
  }

  /** After a successful `wait` every stored time lies within the last `period` seconds, and the last one is `now`. */
  lemma WaitRecent(ts: seq<real>, calls: int, period: int, now: real)
    requires period > 0
    requires WaitStep(ts, calls, period, now).1.Waited?
    ensures forall x :: x in WaitStep(ts, calls, period, now).0 ==> x > now - period as real
    ensures var r := WaitStep(ts, calls, period, now).0; r != [] && r[|r| - 1] == now
  {
    var kept := Prune(ts, now - period as real);
    PruneMembers(ts, now - period as real);
    if |kept| >= calls {
      assert forall x :: x in kept[1..] ==> x in kept;
    }
  }

  /** With `calls >= 1`, a list of at most `calls` times stays that short, and `wait` never fails. */
  lemma WaitBounded(ts: seq<real>, calls: int, period: int, now: real)
    requires calls >= 1 && |ts| <= calls
    ensures WaitStep(ts, calls, period, now).1.Waited?
    ensures |WaitStep(ts, calls, period, now).0| <= calls
  {
    PruneMembers(ts, now - period as real);
  }

  /** With room in the window, nothing is removed or slept: `now` is appended to the pruned list. */
  lemma WaitWithRoom(ts: seq<real>, calls: int, period: int, now: real)
    requires |Prune(ts, now - period as real)| < calls
    ensures WaitStep(ts, calls, period, now) == (Prune(ts, now - period as real) + [now], Waited(0.0))
  {
  }

  /**
   * With a full window exactly the oldest time is removed, and the sleep
   * lasts until it leaves the window; since every kept time is inside the
   * window, that sleep is always positive.
   */
  lemma WaitWhenFull(ts: seq<real>, calls: int, period: int, now: real)
    requires calls >= 1
    requires |Prune(ts, now - period as real)| >= calls
    ensures var kept := Prune(ts, now - period as real);
      WaitStep(ts, calls, period, now) == (kept[1..] + [now], Waited(kept[0] - (now - period as real)))
    ensures WaitStep(ts, calls, period, now).1.sleep > 0.0
  {
    var kept := Prune(ts, now - period as real);
    PruneMembers(ts, now - period as real);
    assert kept[0] in kept;
  }

  /** If the clock never goes back, the list stays sorted. */
  lemma WaitSorted(ts: seq<real>, calls: int, period: int, now: real)
    requires Sorted(ts) && forall x :: x in ts ==> x <= now
    ensures Sorted(WaitStep(ts, calls, period, now).0)
  {
    var cutoff := now - period as real;
    var kept := Prune(ts, cutoff);
    PruneSorted(ts, cutoff);
    PruneMembers(ts, cutoff);
    if |kept| >= calls && kept != [] {
      var rest := kept[1..];
      assert Sorted(rest) by {
        forall i, j | 0 <= i < j < |rest| ensures rest[i] <= rest[j] {
          assert rest[i] == kept[i + 1] && rest[j] == kept[j + 1];
        }
      }
      assert forall y :: y in rest ==> y in kept;
      AppendSorted(rest, now);
    } else if |kept| < calls {
      AppendSorted(kept, now);
    }
  }

  lemma AppendSorted(ts: seq<real>, x: real)
    requires Sorted(ts) && forall y :: y in ts ==> y <= x
    ensures Sorted(ts + [x])
  {
    var s := ts + [x];
    forall i, j | 0 <= i < j < |s| ensures s[i] <= s[j] {
      assert s[i] == ts[i];
      if j == |ts| {
        assert ts[i] in ts;
      } else {
        assert s[j] == ts[j];
      }
    }
  }

  /** `RateLimiter`: `calls` calls per `period` seconds over the list `timestamps`. */
  class RateLimiter {
    const calls: int
    const period: int
    var timestamps: seq<real>

    constructor (calls: int, period: int)
      ensures this.calls == calls && this.period == period && timestamps == []
    {
      this.calls := calls;
      this.period := period;
      timestamps := [];
    }

    /** At most `calls` times on record, with `calls` positive. */
    predicate Bounded()
      reads this
    {
      calls >= 1 && |timestamps| <= calls
    }

    /** `wait()` at clock reading `now`. */
    method Wait(now: real) returns (outcome: WaitOutcome)
      modifies this
      ensures (timestamps, outcome) == WaitStep(old(timestamps), calls, period, now)
      ensures old(Bounded()) ==> Bounded() && outcome.Waited?
    {
      ghost var before := timestamps;
      timestamps := Prune(timestamps, now - period as real);
      outcome := Waited(0.0);
      if |timestamps| >= calls {
        if timestamps == [] {
          return IndexError;
        }
        var waitTime := timestamps[0] - (now - period as real);
        if waitTime > 0.0 {
          outcome := Waited(waitTime);
        }
        timestamps := timestamps[1..];
      }
      timestamps := timestamps + [now];
      if calls >= 1 && |before| <= calls {
        WaitBounded(before, calls, period, now);
      }
    }
  }
}
