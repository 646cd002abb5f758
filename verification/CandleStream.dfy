/** What the candle stream is, over whole runs: the trades grouped by the bucket of their trade time,
    with every lot of volume accounted for. */
module CandleStream {
  import opened Common
  import opened Historical
  import opened Candles
  import opened Grouping
  import opened CandleRuns
  import CR = CandleRuns

  /** The packets of an event sequence. */
  function PacketsOf(es: seq<Event>): seq<Packet> {
    if |es| == 0 then []
    else PacketsOf(Front(es)) + (if Last(es).Seen? then [Last(es).p] else [])
  }

  lemma {:induction false} RunPackets(lc: int, step: int, es: seq<Event>)
    requires step > 0 && Exec(lc, step, es).Some?
    ensures Exec(lc, step, es).value.packets == PacketsOf(es)
  {
    if |es| > 0 {
      RunPackets(lc, step, Front(es));
    }
  }

  /** Every finished bar but a part-way first one is handed out. */
  lemma {:induction false} PublishedIs(bs: seq<Bar>)
    requires forall i :: 0 < i < |bs| ==> !bs[i].partial
    ensures Published(bs) == CandlesOf(if |bs| > 0 && bs[0].partial then bs[1..] else bs)
  {
    if |bs| > 1 {
      PublishedIs(Front(bs));
      var rest := if bs[0].partial then bs[1..] else bs;
      var front := if bs[0].partial then Front(bs)[1..] else Front(bs);
      assert Front(rest) == front;
      assert CandlesOf(rest) == CandlesOf(front) + [CandleOf(Last(bs))];
    } else if |bs| == 1 {
      assert Front(bs) == [];
    }
  }

  function CandlesOf(bs: seq<Bar>): (r: seq<Candle>)
    ensures |r| == |bs| && forall i :: 0 <= i < |r| ==> r[i] == CandleOf(bs[i])
  {
    if |bs| == 0 then [] else CandlesOf(Front(bs)) + [CandleOf(Last(bs))]
  }

  /** The stream is the group-by: in every run without a late trade the bars handed out, the one
      withheld because it was joined part-way, and the bars still open are together exactly the
      trades of the packets grouped by bucket. */
  lemma {:induction false} StreamIsGroupBy(lc: int, step: int, es: seq<Event>)
    requires step > 0 && Exec(lc, step, es).Some?
    ensures var r := Exec(lc, step, es).value;
            var ps := PacketsOf(es);
            && Sane(ps)
            && (r.agg.late == 0 ==> IsGroupBy(TradesOf(ps), step, Plains(Bars(r))))
            && Bars(r) == r.finished + OpenBars(r.agg)
            && r.out == CandlesOf(if |r.finished| > 0 && JoinedPartWay(ps, step) then r.finished[1..] else r.finished)
  {
    ExecKeeps(lc, step, es);
    RunPackets(lc, step, es);
    var r := Exec(lc, step, es).value;
    assert forall i :: 0 <= i < |r.finished| ==> r.finished[i] == Bars(r)[i];
    PublishedIs(r.finished);
  }

  /** With late trades the bars are still a grouping: of the trades that were on time, a bar's first
      trade taking the volume carried to it. Every trade is booked or counted late. */
  lemma {:induction false} LateTradesAreCounted(lc: int, step: int, es: seq<Event>)
    requires step > 0 && Exec(lc, step, es).Some?
    ensures var r := Exec(lc, step, es).value;
            && IsGroupBy(r.booked, step, Plains(Bars(r)))
            && Sane(PacketsOf(es)) && |r.booked| + r.agg.late == |TradesOf(PacketsOf(es))|
  {
    ExecKeeps(lc, step, es);
    RunPackets(lc, step, es);
  }

  lemma {:induction false} BarVolumeSplit(a: seq<Bar>, b: seq<Bar>)
    ensures BarVolume(a + b) == BarVolume(a) + BarVolume(b)
  {
    if |b| == 0 {
      assert a + b == a;
    } else {
      assert Front(a + b) == a + Front(b);
      BarVolumeSplit(a, Front(b));
    }
  }

  lemma {:induction false} PublishedVolume(bs: seq<Bar>)
    requires forall i :: 0 < i < |bs| ==> !bs[i].partial
    ensures TotalVolume(Published(bs)) + (if |bs| > 0 && bs[0].partial then bs[0].volume else 0) == BarVolume(bs)
  {
    if |bs| > 0 {
      PublishedVolume(Front(bs));
      if !Last(bs).partial {
        assert Front(Published(bs)) == Published(Front(bs));
      } else {
        assert Front(bs) == [];
      }
    }
  }

  /** Volume conservation: what the exchange traded between the first and the latest packet is what
      was handed out, what the withheld part-way bar held, what the open bars hold and the carry. */
  lemma {:induction false} VolumeConserved(lc: int, step: int, es: seq<Event>)
    requires step > 0 && Exec(lc, step, es).Some?
    ensures var r := Exec(lc, step, es).value;
            var ps := PacketsOf(es);
            && Sane(ps)
            && Traded(ps) == TotalVolume(r.out)
                             + (if |r.finished| > 0 && JoinedPartWay(ps, step) then r.finished[0].volume else 0)
                             + BarVolume(OpenBars(r.agg)) + r.agg.carry
  {
    ExecKeeps(lc, step, es);
    RunPackets(lc, step, es);
    var r := Exec(lc, step, es).value;
    BarVolumeSplit(r.finished, OpenBars(r.agg));
    assert forall i :: 0 <= i < |r.finished| ==> r.finished[i] == Bars(r)[i];
    PublishedVolume(r.finished);
  }

  lemma {:induction false} RunPlaced(lc: int, step: int, es: seq<Event>)
    requires step > 0 && Exec(lc, step, es).Some?
    ensures Placed(lc, Exec(lc, step, es).value.finished, Exec(lc, step, es).value.agg)
  {
    ExecKeeps(lc, step, es);
  }

  ghost predicate OnGrid(c: Candle, lc: int, step: int)
    requires step > 0
  {
    c.time.Some? && c.time.value.epoch >= lc && Aligned(c.time.value.epoch, step)
  }

  ghost predicate Earlier(c: Candle, d: Candle) {
    c.time.Some? && d.time.Some? && c.time.value.epoch < d.time.value.epoch
  }

  lemma {:induction false} CandlesInOrder(lc: int, bs: seq<Bar>, a: Agg, fin: seq<Bar>, k: nat)
    requires a.step > 0 && Placed(lc, fin, a) && k <= |fin| && bs == fin[k..]
    ensures forall i :: 0 <= i < |bs| ==> OnGrid(CandlesOf(bs)[i], lc, a.step)
    ensures forall i, j :: 0 <= i < j < |bs| ==> Earlier(CandlesOf(bs)[i], CandlesOf(bs)[j])
  {
    forall i | 0 <= i < |bs|
      ensures OnGrid(CandlesOf(bs)[i], lc, a.step)
      ensures forall j :: i < j < |bs| ==> Earlier(CandlesOf(bs)[i], CandlesOf(bs)[j])
    {
      var all := Whole(fin, a);
      assert bs[i] == all[i + k] && Standing(lc, |fin|, a, all, i + k);
      forall j | i < j < |bs|
        ensures Earlier(CandlesOf(bs)[i], CandlesOf(bs)[j])
      {
        assert all[i + k].start < all[j + k].start;
      }
    }
  }

  /** Candles come out in strictly increasing order, on the grid, none before the warm-up close. */
  lemma {:induction false} EmittedInOrder(lc: int, step: int, es: seq<Event>)
    requires step > 0 && Exec(lc, step, es).Some?
    ensures var out := Exec(lc, step, es).value.out;
            && (forall i :: 0 <= i < |out| ==> OnGrid(out[i], lc, step))
            && (forall i, j :: 0 <= i < j < |out| ==> Earlier(out[i], out[j]))
  {
    RunPlaced(lc, step, es);
    StreamIsGroupBy(lc, step, es);
    var r := Exec(lc, step, es).value;
    var k := if |r.finished| > 0 && JoinedPartWay(PacketsOf(es), step) then 1 else 0;
    assert r.finished[0..] == r.finished;
    CandlesInOrder(lc, r.finished[k..], r.agg, r.finished, k);
  }

  /** From `r` to `r2` exactly the open bars whose period ended at least 1000 ms before `now` are finished. */
  ghost predicate Finishes(r: Run, r2: Run, step: int, now: int) {
    var open, n := OpenBars(r.agg), |r2.finished| - |r.finished|;
    var ok :=
      && 0 <= n <= |open| && r2.finished == r.finished + open[..n] && OpenBars(r2.agg) == open[n..]
      && forall i :: 0 <= i < |open| ==> (i < n <==> (open[i].start + step) * 1_000 + 1_000 <= now);
    ok
  }

  /** In every run, a clock event finishes exactly what is due. */
  lemma {:induction false} EmittedOnTime(lc: int, step: int, es: seq<Event>, now: int)
    requires step > 0 && Exec(lc, step, es).Some?
    ensures Exec(lc, step, es + [Tick(now)]).Some?
    ensures Finishes(Exec(lc, step, es).value, Exec(lc, step, es + [Tick(now)]).value, step, now)
  {
    RunPlaced(lc, step, es);
    TickMore(lc, step, es, now);
    TickFinishes(lc, Exec(lc, step, es).value, now);
  }

  lemma {:induction false} TickMore(lc: int, step: int, es: seq<Event>, now: int)
    requires step > 0 && Exec(lc, step, es).Some?
    ensures Exec(lc, step, es).value.agg.step == step
    ensures CR.After(Exec(lc, step, es).value, Tick(now)).Some?
    ensures Exec(lc, step, es + [Tick(now)]) == CR.After(Exec(lc, step, es).value, Tick(now))
  {
    assert Front(es + [Tick(now)]) == es;
  }

  lemma TickFinishes(lc: int, r: Run, now: int)
    requires r.agg.step > 0 && Placed(lc, r.finished, r.agg)
    ensures Finishes(r, CR.After(r, Tick(now)).value, r.agg.step, now)
  {
    CloseOnTime(lc, r.finished, r.agg, now);
    OpenFacts(lc, r.finished, r.agg);
    CloseSplitsOpen(r.agg, now);
    SplitOnTime(OpenBars(r.agg), Finished(r.agg, now), OpenBars(AfterClock(r.agg, now)), r.agg.step, now);
  }

  lemma {:induction false} SplitOnTime(open: seq<Bar>, done: seq<Bar>, rest: seq<Bar>, step: int, now: int)
    requires done + rest == open
    requires forall i :: 0 <= i < |done| ==> DueMs(done[i].start, step) <= now
    requires forall i :: 0 <= i < |rest| ==> now < DueMs(rest[i].start, step)
    ensures open[..|done|] == done && open[|done|..] == rest
    ensures forall i :: 0 <= i < |open| ==> (i < |done| <==> (open[i].start + step) * 1_000 + 1_000 <= now)
  {
    forall i | 0 <= i < |open|
      ensures i < |done| <==> (open[i].start + step) * 1_000 + 1_000 <= now
    {
      assert open[i] == if i < |done| then done[i] else rest[i - |done|];
    }
  }
}
