/** Restart intensity: a sliding window of restart times, kept as a deque. */
module Intensity {
  /** The times no more than `period` before `now`. */
  function Recent(times: seq<real>, now: real, period: real): seq<real> {
    if times == [] then []
    else if now - times[0] <= period then [times[0]] + Recent(times[1..], now, period)
    else Recent(times[1..], now, period)
  }

  /** A monotonic clock. */
  ghost predicate Sorted(times: seq<real>) {
    forall i, j :: 0 <= i < j < |times| ==> times[i] <= times[j]
  }

  /** The times in the closed interval from `low` to `high`. */
  function Within(times: seq<real>, low: real, high: real): nat {
    if times == [] then 0
    else (if low <= times[0] <= high then 1 else 0) + Within(times[1..], low, high)
  }

  class RestartLog {
    const maxRestarts: int
    const maxSeconds: real
    /** `restart_times` */
    var times: seq<real>
    /** Every restart recorded so far. */
    ghost var history: seq<real>

    constructor (maxRestarts: int, maxSeconds: real)
      ensures this.maxRestarts == maxRestarts && this.maxSeconds == maxSeconds && times == [] && history == []
      ensures Valid()
    {
      this.maxRestarts, this.maxSeconds := maxRestarts, maxSeconds;
      times, history := [], [];
    }

    /** The deque holds exactly the restarts of the last `maxSeconds`, as of the last one. */
    ghost predicate Valid()
      reads this
    {
      Sorted(history) && times == if history == [] then [] else Recent(history, history[|history| - 1], maxSeconds)
    }

    /** `_record_restart` at time `now`. */
    method RecordRestart(now: real) returns (exceeded: bool)
      requires Valid() && (history != [] ==> history[|history| - 1] <= now)
      modifies this
      ensures Valid() && history == old(history) + [now]
      ensures times == Recent(history, now, maxSeconds)
      ensures exceeded <==> |times| > maxRestarts
      ensures Survives(history, maxRestarts, maxSeconds)
        <==> Survives(old(history), maxRestarts, maxSeconds) && !exceeded
    {
      Appended(history, times, now, maxSeconds);
      history := history + [now];
      times := times + [now];
      while times != [] && now - times[0] > maxSeconds
        invariant history == old(history) + [now]
        invariant Sorted(times) && Recent(times, now, maxSeconds) == Recent(history, now, maxSeconds)
        decreases |times|
      {
        assert forall i :: 0 <= i < |times[1..]| ==> times[1..][i] == times[i + 1];
        times := times[1..];
      }
      AllRecent(times, now, maxSeconds);
      exceeded := |times| > maxRestarts;
      SurvivesOneMore(old(history), now, maxRestarts, maxSeconds);
    }
  }

  lemma {:induction false} RecentConcat(a: seq<real>, b: seq<real>, now: real, period: real)
    ensures Recent(a + b, now, period) == Recent(a, now, period) + Recent(b, now, period)
  {
    if a == [] {
      assert a + b == b;
    } else {
      assert (a + b)[1..] == a[1..] + b;
      RecentConcat(a[1..], b, now, period);
    }
  }

  /** What is recent later was recent before. */
  lemma {:induction false} RecentLater(times: seq<real>, before: real, now: real, period: real)
    requires before <= now
    ensures Recent(Recent(times, before, period), now, period) == Recent(times, now, period)
  {
    if times != [] {
      RecentLater(times[1..], before, now, period);
      if before - times[0] <= period {
        assert Recent(times, before, period)[1..] == Recent(times[1..], before, period);
      }
    }
  }

  /** Recording one more restart, before anything is popped. */
  lemma Appended(history: seq<real>, times: seq<real>, now: real, period: real)
    requires Sorted(history) && (history != [] ==> history[|history| - 1] <= now)
    requires times == if history == [] then [] else Recent(history, history[|history| - 1], period)
    ensures Sorted(history + [now]) && Sorted(times + [now])
    ensures Recent(times + [now], now, period) == Recent(history + [now], now, period)
  {
    if history != [] {
      var last := history[|history| - 1];
      RecentLater(history, last, now, period);
      SortedRecent(history, last, period, now);
    }
    RecentConcat(times, [now], now, period);
    RecentConcat(history, [now], now, period);
  }

  lemma {:induction false} RecentElements(times: seq<real>, now: real, period: real)
    ensures forall x :: x in Recent(times, now, period) ==> x in times
  {
    if times != [] {
      RecentElements(times[1..], now, period);
    }
  }

  lemma {:induction false} SortedRecent(times: seq<real>, now: real, period: real, next: real)
    requires Sorted(times) && forall i :: 0 <= i < |times| ==> times[i] <= next
    ensures Sorted(Recent(times, now, period) + [next])
  {
    if times != [] {
      var rest := Recent(times[1..], now, period);
      SortedRecent(times[1..], now, period, next);
      RecentElements(times[1..], now, period);
      forall x | x in rest + [next] ensures times[0] <= x {
        if x in rest {
          assert x in times[1..];
        }
      }
      assert [times[0]] + rest + [next] == [times[0]] + (rest + [next]);
      forall i, j | 0 <= i < j < |[times[0]] + (rest + [next])|
        ensures ([times[0]] + (rest + [next]))[i] <= ([times[0]] + (rest + [next]))[j]
      {
        assert ([times[0]] + (rest + [next]))[j] == (rest + [next])[j - 1];
        assert (rest + [next])[j - 1] in rest + [next];
      }
    }
  }

  /** A sorted deque whose first time is recent holds only recent ones. */
  lemma {:induction false} AllRecent(times: seq<real>, now: real, period: real)
    requires Sorted(times) && (times != [] ==> now - times[0] <= period)
    ensures Recent(times, now, period) == times
  {
    if times != [] {
      assert times[1..] != [] ==> times[1..][0] == times[1];
      AllRecent(times[1..], now, period);
      assert times == [times[0]] + times[1..];
    }
  }

  // ---------------------------------------------------------------------
  // Whole runs of one loop
  // ---------------------------------------------------------------------

  /** The loop outlives the restarts in `history`: none of them, when recorded, exceeded. */
  ghost predicate Survives(history: seq<real>, maxRestarts: int, period: real) {
    forall k :: 0 < k <= |history| ==> |Recent(history[..k], history[k - 1], period)| <= maxRestarts
  }

  lemma SurvivesOneMore(history: seq<real>, now: real, maxRestarts: int, period: real)
    ensures Survives(history + [now], maxRestarts, period)
       <==> Survives(history, maxRestarts, period) && |Recent(history + [now], now, period)| <= maxRestarts
  {
    var grown := history + [now];
    assert grown[..|grown|] == grown && grown[|grown| - 1] == now;
    assert forall k :: 0 < k <= |history| ==> grown[..k] == history[..k] && grown[k - 1] == history[k - 1];
  }

  lemma {:induction false} RecentIsWithin(times: seq<real>, now: real, period: real)
    requires forall i :: 0 <= i < |times| ==> times[i] <= now
    ensures |Recent(times, now, period)| == Within(times, now - period, now)
  {
    if times != [] {
      RecentIsWithin(times[1..], now, period);
    }
  }

  lemma {:induction false} WithinConcat(a: seq<real>, b: seq<real>, low: real, high: real)
    ensures Within(a + b, low, high) == Within(a, low, high) + Within(b, low, high)
  {
    if a == [] {
      assert a + b == b;
    } else {
      assert (a + b)[1..] == a[1..] + b;
      WithinConcat(a[1..], b, low, high);
    }
  }

  lemma {:induction false} WithinWider(times: seq<real>, low: real, high: real, low': real, high': real)
    requires forall i :: 0 <= i < |times| && low <= times[i] <= high ==> low' <= times[i] <= high'
    ensures Within(times, low, high) <= Within(times, low', high')
  {
    if times != [] {
      assert times[0] == times[0];
      assert forall i :: 0 <= i < |times[1..]| ==> times[1..][i] == times[i + 1];
      WithinWider(times[1..], low, high, low', high');
    }
  }

  lemma SurvivesPrefix(history: seq<real>, maxRestarts: int, period: real)
    requires history != [] && Survives(history, maxRestarts, period)
    ensures Survives(history[..|history| - 1], maxRestarts, period)
    ensures |Recent(history, history[|history| - 1], period)| <= maxRestarts
  {
    var front := history[..|history| - 1];
    assert history[..|history|] == history;
    forall k | 0 < k <= |front| ensures |Recent(front[..k], front[k - 1], period)| <= maxRestarts {
      assert front[..k] == history[..k];
    }
  }

  /** An interval that holds the last restart lies, as far as restarts go, in its window. */
  lemma WindowHolds(history: seq<real>, maxRestarts: int, period: real, low: real)
    requires Sorted(history) && history != [] && low <= history[|history| - 1] <= low + period
    requires |Recent(history, history[|history| - 1], period)| <= maxRestarts
    ensures Within(history, low, low + period) <= maxRestarts
  {
    var last := history[|history| - 1];
    RecentIsWithin(history, last, period);
    WithinWider(history, low, low + period, last - period, last);
  }

  /** Up to the last restart in the interval, the interval lies in that restart's window. */
  lemma {:induction false} WindowOfLast(history: seq<real>, maxRestarts: int, period: real, low: real)
    requires Sorted(history) && Survives(history, maxRestarts, period) && history != []
    ensures Within(history, low, low + period) <= maxRestarts
    decreases |history|
  {
    var n := |history| - 1;
    var front, last := history[..n], history[n];
    SurvivesPrefix(history, maxRestarts, period);
    if low <= last <= low + period {
      WindowHolds(history, maxRestarts, period, low);
    } else {
      assert history == front + [last];
      WithinConcat(front, [last], low, low + period);
      assert Within([last], low, low + period) == 0;
      if front != [] {
        WindowOfLast(front, maxRestarts, period, low);
      }
    }
  }

  /** The closed interval of `period` from `low` does not hold too many restarts. */
  ghost predicate Calm(history: seq<real>, maxRestarts: int, period: real, low: real) {
    Within(history, low, low + period) <= maxRestarts
  }

  /** A loop is still there after its restarts exactly when no closed interval of
      `maxSeconds` holds more than `maxRestarts` of them. */
  lemma IntensityLimit(history: seq<real>, maxRestarts: int, period: real)
    requires Sorted(history)
    ensures Survives(history, maxRestarts, period)
       <==> history == [] || forall low: real :: Calm(history, maxRestarts, period, low)
  {
    if history != [] && Survives(history, maxRestarts, period) {
      forall low: real ensures Calm(history, maxRestarts, period, low) {
        WindowOfLast(history, maxRestarts, period, low);
      }
    }
    if history != [] && forall low: real :: Calm(history, maxRestarts, period, low) {
      forall k | 0 < k <= |history| ensures |Recent(history[..k], history[k - 1], period)| <= maxRestarts {
        var now := history[k - 1];
        RecentIsWithin(history[..k], now, period);
        assert history == history[..k] + history[k..];
        WithinConcat(history[..k], history[k..], now - period, now);
        assert Calm(history, maxRestarts, period, now - period);
        assert now - period + period == now;
      }
    }
  }
}
