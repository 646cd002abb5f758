/** The sliding-window request pacer (`crates/kite-adapter/src/http/authenticated.rs`, `Pacer::admit`).
    Times are milliseconds on a clock that does not go backwards. */
module Pacer {
  import opened Common

  const PACE_WINDOW: int := 1_000
  const GENERAL_PER_WINDOW: nat := 8
  const HISTORICAL_PER_WINDOW: nat := 2

  /** The queue without the requests that have left the window. */
  function Live(q: seq<int>, now: int): seq<int> {
    if |q| > 0 && now - q[0] >= PACE_WINDOW then Live(q[1..], now) else q
  }

  /** The queue after a request at `now`, and None when it is admitted or the time to retry. */
  function Admitted(q: seq<int>, cap: nat, now: int): (seq<int>, Option<int>) {
    var live := Live(q, now);
    if |live| < cap then (live + [now], None)
    else (live, if |live| > 0 then Some(live[0] + PACE_WINDOW) else None)
  }

  // ------------------------------------------------------- what the queue stands for

  ghost predicate NonDecreasing(ts: seq<int>) {
    forall i, j :: 0 <= i < j < |ts| ==> ts[i] <= ts[j]
  }

  /** `log` is every request admitted so far, `last` the time of the latest call: the queue is the end of
      the log, and what it has dropped has left the window. */
  ghost predicate Tracks(q: seq<int>, log: seq<int>, cap: nat, last: int) {
    && |q| <= cap && |q| <= |log| && q == log[|log| - |q|..]
    && NonDecreasing(log) && (|log| > 0 ==> Last(log) <= last)
    && (forall i :: 0 <= i < |log| - |q| ==> log[i] + PACE_WINDOW <= last)
  }

  /** Any `cap + 1` consecutive admitted requests span at least the window. */
  ghost predicate Spaced(log: seq<int>, cap: nat) {
    forall i :: 0 <= i && i + cap < |log| ==> log[i + cap] - log[i] >= PACE_WINDOW
  }

  /** Dropping expired requests loses nothing that is still in the window. */
  lemma {:induction false} LiveTracks(q: seq<int>, log: seq<int>, cap: nat, last: int, now: int)
    requires Tracks(q, log, cap, last) && last <= now
    ensures Tracks(Live(q, now), log, cap, now)
    ensures |Live(q, now)| > 0 ==> now - Live(q, now)[0] < PACE_WINDOW
    decreases |q|
  {
    if |q| > 0 && now - q[0] >= PACE_WINDOW {
      assert q[0] == log[|log| - |q|];
      assert q[1..] == log[|log| - |q[1..]|..];
      LiveTracks(q[1..], log, cap, now, now);
    }
  }

  lemma PushTracks(live: seq<int>, log: seq<int>, cap: nat, now: int)
    requires Tracks(live, log, cap, now) && |live| < cap
    ensures Tracks(live + [now], log + [now], cap, now)
  {
    var q, log2 := live + [now], log + [now];
    assert |log2| - |q| == |log| - |live|;
    assert q == log2[|log2| - |q|..];
  }

  lemma PushSpaced(live: seq<int>, log: seq<int>, cap: nat, now: int)
    requires Tracks(live, log, cap, now) && |live| < cap && Spaced(log, cap)
    ensures Spaced(log + [now], cap)
  {
    var log2 := log + [now];
    forall i | 0 <= i && i + cap < |log2|
      ensures log2[i + cap] - log2[i] >= PACE_WINDOW
    {
      if i + cap == |log| {
        assert i < |log| - |live|;
      }
    }
  }

  /** An admitted request keeps the spacing. */
  lemma AdmitSpaced(q: seq<int>, log: seq<int>, cap: nat, last: int, now: int)
    requires cap > 0 && Tracks(q, log, cap, last) && Spaced(log, cap) && last <= now
    ensures var (q2, r) := Admitted(q, cap, now);
            var log2 := if r.None? then log + [now] else log;
            Tracks(q2, log2, cap, now) && Spaced(log2, cap)
  {
    LiveTracks(q, log, cap, last, now);
    var live := Live(q, now);
    if |live| < cap {
      PushTracks(live, log, cap, now);
      PushSpaced(live, log, cap, now);
    }
  }

  /** A refused call names the earliest time at which a retry that nobody contends succeeds. */
  lemma RetryIsEarliest(q: seq<int>, log: seq<int>, cap: nat, last: int, now: int, t: int)
    requires cap > 0 && Tracks(q, log, cap, last) && last <= now && Admitted(q, cap, now).1.Some? && t >= now
    ensures Admitted(Admitted(q, cap, now).0, cap, t).1.None? <==> t >= Admitted(q, cap, now).1.value
    ensures Admitted(q, cap, now).1.value > now
  {
    LiveTracks(q, log, cap, last, now);
    var live := Live(q, now);
    if t >= live[0] + PACE_WINDOW {
      LiveShrinks(live[1..], t);
    }
  }

  lemma {:induction false} LiveShrinks(q: seq<int>, now: int)
    ensures |Live(q, now)| <= |q|
  {
    if |q| > 0 && now - q[0] >= PACE_WINDOW {
      LiveShrinks(q[1..], now);
    }
  }

  /** The admitted requests of a sequence of calls at `times`, and the queue after them. */
  function Log(cap: nat, times: seq<int>): (seq<int>, seq<int>) {
    if |times| == 0 then ([], [])
    else
      var (q, log) := Log(cap, Front(times));
      var (q2, r) := Admitted(q, cap, Last(times));
      (q2, if r.None? then log + [Last(times)] else log)
  }

  /** The rate bound: for every non-decreasing sequence of calls the queue never exceeds the cap and any
      `cap + 1` consecutive admitted requests span at least the window. */
  lemma {:induction false} RateIsBounded(cap: nat, times: seq<int>)
    requires cap > 0 && NonDecreasing(times)
    ensures |Log(cap, times).0| <= cap && Spaced(Log(cap, times).1, cap)
    ensures Tracks(Log(cap, times).0, Log(cap, times).1, cap, if |times| > 0 then Last(times) else 0)
  {
    if |times| > 0 {
      var f := Front(times);
      assert NonDecreasing(f) by {
        assert forall i :: 0 <= i < |f| ==> f[i] == times[i];
      }
      RateIsBounded(cap, f);
      var (q, log) := Log(cap, f);
      if |f| == 0 {
        assert Tracks(q, log, cap, Last(times));
        AdmitSpaced(q, log, cap, Last(times), Last(times));
      } else {
        assert Last(f) == times[|times| - 2];
        AdmitSpaced(q, log, cap, Last(f), Last(times));
      }
    }
  }

  /** Requests of the log in the 1000 ms up to `now`. */
  function Recent(log: seq<int>, now: int): nat {
    if |log| == 0 then 0 else Recent(Front(log), now) + (if now - Last(log) < 1_000 then 1 else 0)
  }

  lemma {:induction false} RecentNone(log: seq<int>, now: int)
    requires forall i :: 0 <= i < |log| ==> now - log[i] >= 1_000
    ensures Recent(log, now) == 0
  {
    if |log| > 0 {
      assert Last(log) == log[|log| - 1];
      RecentNone(Front(log), now);
    }
  }

  /** The last `n` requests of the log are the recent ones. */
  lemma {:induction false} RecentTail(log: seq<int>, n: nat, now: int)
    requires n <= |log|
    requires forall i :: 0 <= i < |log| - n ==> now - log[i] >= 1_000
    requires forall i :: |log| - n <= i < |log| ==> now - log[i] < 1_000
    ensures Recent(log, now) == n
  {
    if n == 0 {
      RecentNone(log, now);
    } else {
      assert Last(log) == log[|log| - 1];
      RecentTail(Front(log), n - 1, now);
    }
  }

  lemma {:induction false} LiveIsRecent(q: seq<int>, log: seq<int>, cap: nat, last: int, now: int)
    requires Tracks(q, log, cap, last) && last <= now
    ensures |Live(q, now)| == Recent(log, now)
  {
    LiveTracks(q, log, cap, last, now);
    var live := Live(q, now);
    forall i | |log| - |live| <= i < |log|
      ensures now - log[i] < 1_000
    {
      assert log[i] == live[i - (|log| - |live|)] && live[0] == log[|log| - |live|];
    }
    RecentTail(log, |live|, now);
  }

  /** The limits, over every non-decreasing sequence of calls: any nine general requests span at least 1000 ms, any
      three historical ones do, and a call is admitted exactly when fewer than eight, or two, were admitted in the
      1000 ms before it. */
  lemma {:induction false} LimitsAreExact(times: seq<int>, now: int)
    requires NonDecreasing(times) && (|times| > 0 ==> Last(times) <= now)
    ensures var log := Log(GENERAL_PER_WINDOW, times).1;
            && (forall i :: 0 <= i && i + 8 < |log| ==> log[i + 8] - log[i] >= 1_000)
            && (Admitted(Log(GENERAL_PER_WINDOW, times).0, GENERAL_PER_WINDOW, now).1.None? <==> Recent(log, now) < 8)
    ensures var log := Log(HISTORICAL_PER_WINDOW, times).1;
            && (forall i :: 0 <= i && i + 2 < |log| ==> log[i + 2] - log[i] >= 1_000)
            && (Admitted(Log(HISTORICAL_PER_WINDOW, times).0, HISTORICAL_PER_WINDOW, now).1.None?
               <==> Recent(log, now) < 2)
  {
    LimitIsExact(GENERAL_PER_WINDOW, times, now);
    LimitIsExact(HISTORICAL_PER_WINDOW, times, now);
  }

  lemma {:induction false} LimitIsExact(cap: nat, times: seq<int>, now: int)
    requires cap > 0 && NonDecreasing(times) && (|times| > 0 ==> Last(times) <= now)
    ensures Spaced(Log(cap, times).1, cap)
    ensures Admitted(Log(cap, times).0, cap, now).1.None? <==> Recent(Log(cap, times).1, now) < cap
  {
    RateIsBounded(cap, times);
    var (q, log) := Log(cap, times);
    if |times| == 0 {
      assert Live([], now) == [];
    } else {
      LiveIsRecent(q, log, cap, Last(times), now);
    }
  }

  // ------------------------------------------------------------ the mutable pacer

  class Pacer {
    var general: seq<int>
    var historical: seq<int>
    /** Every request admitted so far, by class, and the time of the latest call. */
    ghost var generalLog: seq<int>
    ghost var historicalLog: seq<int>
    ghost var last: int

    ghost predicate Valid()
      reads this
    {
      && (var ok := Kept(general, generalLog, GENERAL_PER_WINDOW, last); ok)
      && (var ok := Kept(historical, historicalLog, HISTORICAL_PER_WINDOW, last); ok)
    }

    constructor ()
      ensures Valid() && generalLog == [] && historicalLog == []
    {
      general, historical := [], [];
      generalLog, historicalLog, last := [], [], 0;
    }

    /** One request: it takes a place in its window, or learns when one becomes free. */
    method Admit(now: int, isHistorical: bool) returns (retry: Option<int>)
      requires Valid() && now >= last
      modifies this
      ensures Valid() && last == now
      ensures isHistorical ==>
                && (historical, retry) == Admitted(old(historical), HISTORICAL_PER_WINDOW, now)
                && historicalLog == (if retry.None? then old(historicalLog) + [now] else old(historicalLog))
                && general == old(general) && generalLog == old(generalLog)
      ensures !isHistorical ==>
                && (general, retry) == Admitted(old(general), GENERAL_PER_WINDOW, now)
                && generalLog == (if retry.None? then old(generalLog) + [now] else old(generalLog))
                && historical == old(historical) && historicalLog == old(historicalLog)
    {
      if isHistorical {
        retry := AdmitHistorical(now);
      } else {
        retry := AdmitGeneral(now);
      }
    }

    method AdmitHistorical(now: int) returns (retry: Option<int>)
      requires Valid() && now >= last
      modifies this`historical, this`historicalLog, this`last
      ensures Valid() && last == now && (historical, retry) == Admitted(old(historical), HISTORICAL_PER_WINDOW, now)
      ensures historicalLog == if retry.None? then old(historicalLog) + [now] else old(historicalLog)
    {
      Later(general, generalLog, GENERAL_PER_WINDOW, last, now);
      historical, retry, historicalLog := AdmitTo(historical, HISTORICAL_PER_WINDOW, now, historicalLog, last);
      last := now;
    }

    method AdmitGeneral(now: int) returns (retry: Option<int>)
      requires Valid() && now >= last
      modifies this`general, this`generalLog, this`last
      ensures Valid() && last == now && (general, retry) == Admitted(old(general), GENERAL_PER_WINDOW, now)
      ensures generalLog == if retry.None? then old(generalLog) + [now] else old(generalLog)
    {
      Later(historical, historicalLog, HISTORICAL_PER_WINDOW, last, now);
      general, retry, generalLog := AdmitTo(general, GENERAL_PER_WINDOW, now, generalLog, last);
      last := now;
    }
  }

  /** A queue that follows its log, and a log that keeps the rate. */
  ghost predicate Kept(q: seq<int>, log: seq<int>, cap: nat, last: int) {
    var ok := Tracks(q, log, cap, last) && Spaced(log, cap);
    ok
  }

  /** A class that is not called only gets older. */
  lemma Later(q: seq<int>, log: seq<int>, cap: nat, last: int, now: int)
    requires Kept(q, log, cap, last) && last <= now
    ensures Kept(q, log, cap, now)
  {
  }

  /** One queue and its log. */
  method AdmitTo(q: seq<int>, cap: nat, now: int, ghost log: seq<int>, ghost last: int)
    returns (queue: seq<int>, retry: Option<int>, ghost log2: seq<int>)
    requires cap > 0 && Kept(q, log, cap, last) && last <= now
    ensures (queue, retry) == Admitted(q, cap, now)
    ensures log2 == if retry.None? then log + [now] else log
    ensures Kept(queue, log2, cap, now)
  {
    AdmitSpaced(q, log, cap, last, now);
    queue, retry := PopAndPush(q, cap, now);
    log2 := if retry.None? then log + [now] else log;
  }

  /** One queue's pops and its push. */
  method PopAndPush(q: seq<int>, cap: nat, now: int) returns (queue: seq<int>, retry: Option<int>)
    requires cap > 0
    ensures (queue, retry) == Admitted(q, cap, now)
  {
    queue := q;
    while |queue| > 0 && now - queue[0] >= PACE_WINDOW
      invariant Live(queue, now) == Live(q, now)
    {
      queue := queue[1..];
    }
    if |queue| < cap {
      queue := queue + [now];
      retry := None;
    } else {
      retry := Some(queue[0] + PACE_WINDOW);
    }
  }
}
