/** Runs of the candle aggregator and the invariant every run keeps. */
module CandleRuns {
  import opened Common
  import opened Historical
  import opened Candles
  import opened Grouping

  // ---------------------------------------------------------------------- runs

  datatype Event = Seen(p: Packet) | Tick(now: int)

  /** A run so far: the aggregator, the packets it accepted, the trades it put into bars (a bar's
      first trade with the volume carried into it), the bars it finished and the candles handed out. */
  datatype Run = Run(agg: Agg, packets: seq<Packet>, booked: seq<Trade>, finished: seq<Bar>, out: seq<Candle>)

  ghost function BookedBy(a: Agg, t: Trade): seq<Trade>
    requires a.step > 0
  {
    match PlaceOf(a, Bucket(t.ts, a.step))
    case Late => []
    case Next => [t.(volume := t.volume + a.carry)]
    case _ => [t]
  }

  /** The trade in an accepted packet, as the aggregator sees it. */
  ghost function Arrival(a: Agg, p: Packet): seq<Trade>
    requires a.step > 0 && AfterPacket(a, p).1.None?
  {
    if !a.started then [Trade(p.ts.value, p.price.value, 0)]
    else if IsNewTrade(a, p, Delta(a, p.cumulative.value))
    then BookedBy(a, Trade(TradeTime(p), p.price.value, Delta(a, p.cumulative.value)))
    else []
  }

  ghost function After(r: Run, e: Event): Option<Run>
    requires r.agg.step > 0
  {
    match e
    case Seen(p) =>
      var (a, f) := AfterPacket(r.agg, p);
      if f.Some? then None
      else Some(Run(a, r.packets + [p], r.booked + Arrival(r.agg, p), r.finished, r.out))
    case Tick(now) =>
      var done := Finished(r.agg, now);
      Some(Run(AfterClock(r.agg, now), r.packets, r.booked, r.finished + done, r.out + Published(done)))
  }

  function Start(lastClose: int, step: int): Run {
    Run(Fresh(lastClose, step), [], [], [], [])
  }

  /** Runs of accepted packets and clock events; None once a packet was refused. */
  ghost function Exec(lastClose: int, step: int, es: seq<Event>): (r: Option<Run>)
    requires step > 0
    ensures r.Some? ==> r.value.agg.step == step
  {
    if |es| == 0 then Some(Start(lastClose, step))
    else
      var r := Exec(lastClose, step, Front(es));
      if r.None? then None
      else
        StepStays(r.value, Last(es));
        After(r.value, Last(es))
  }

  lemma StepStays(r: Run, e: Event)
    requires r.agg.step > 0
    ensures After(r, e).Some? ==> After(r, e).value.agg.step == r.agg.step
  {
  }

  // ---------------------------------------------------------------- invariants

  function OpenBars(a: Agg): seq<Bar> {
    a.closing + OptSeq(a.current)
  }

  function Whole(fin: seq<Bar>, a: Agg): seq<Bar> {
    fin + OpenBars(a)
  }

  /** Every bar of the run: finished, waiting out its grace, current. */
  function Bars(r: Run): seq<Bar> {
    Whole(r.finished, r.agg)
  }

  ghost predicate Ascending(bs: seq<Bar>) {
    forall i, j :: 0 <= i < j < |bs| ==> bs[i].start < bs[j].start
  }

  /** Where bar `i` of `bs` stands when the first `n` are finished: on the grid, in order, not
      before the warm-up, and on its side of the last close. */
  ghost predicate Standing(lc: int, n: nat, a: Agg, bs: seq<Bar>, i: nat)
    requires a.step > 0 && i < |bs|
  {
    && Aligned(bs[i].start, a.step) && bs[i].start >= lc
    && (i < n <==> bs[i].start + a.step <= a.lastClose)
    && (i >= n ==> a.current.Some?)
    && (forall j :: i < j < |bs| ==> bs[i].start < bs[j].start)
  }

  ghost predicate Placed(lc: int, fin: seq<Bar>, a: Agg)
    requires a.step > 0
  {
    forall i :: 0 <= i < |Whole(fin, a)| ==> Standing(lc, |fin|, a, Whole(fin, a), i)
  }

  function BarVolume(bs: seq<Bar>): nat {
    if |bs| == 0 then 0 else BarVolume(Front(bs)) + Last(bs).volume
  }

  lemma {:induction false} BarVolumeUpdate(bs: seq<Bar>, i: nat, b: Bar)
    requires i < |bs|
    ensures BarVolume(bs[i := b]) == BarVolume(bs) - bs[i].volume + b.volume
  {
    if i == |bs| - 1 {
      assert Front(bs[i := b]) == Front(bs);
    } else {
      assert Front(bs[i := b]) == Front(bs)[i := b];
      BarVolumeUpdate(Front(bs), i, b);
    }
  }

  /** How a booked trade changes the bars: not at all, one bar more, or one bar grown. */
  datatype Effect = Unchanged | Appended(bar: Bar) | Replaced(index: nat, bar: Bar)

  ghost function EffectOf(fin: seq<Bar>, a: Agg, t: Trade, oi: nat): (e: Effect)
    requires a.step > 0
    ensures e.Replaced? ==> e.index < |Whole(fin, a)| && Whole(fin, a)[e.index].start == Bucket(t.ts, a.step)
    ensures e.Replaced? ==> e.bar == Add(Whole(fin, a)[e.index], t.price, t.volume, oi)
  {
    var b := Bucket(t.ts, a.step);
    match PlaceOf(a, b)
    case Late => Unchanged
    case Next => Appended(NewBar(b, t.price, t.volume + a.carry, oi, false))
    case Closing(i) => Replaced(|fin| + i, Add(a.closing[i], t.price, t.volume, oi))
    case Here => Replaced(|Whole(fin, a)| - 1, Add(a.current.value, t.price, t.volume, oi))
  }

  function Apply(bs: seq<Bar>, e: Effect): seq<Bar>
    requires e.Replaced? ==> e.index < |bs|
  {
    match e
    case Unchanged => bs
    case Appended(b) => bs + [b]
    case Replaced(i, b) => bs[i := b]
  }

  lemma BookEffect(fin: seq<Bar>, a: Agg, t: Trade, oi: nat)
    requires a.step > 0
    ensures Whole(fin, Book(a, t, oi)) == Apply(Whole(fin, a), EffectOf(fin, a, t, oi))
  {
  }

  /** A bar is only started after every bar there is. */
  lemma NextIsLatest(lc: int, fin: seq<Bar>, a: Agg, b: int)
    requires a.step > 0 && Placed(lc, fin, a) && Aligned(b, a.step) && PlaceOf(a, b).Next?
    ensures forall i :: 0 <= i < |Whole(fin, a)| ==> Whole(fin, a)[i].start < b
  {
    var all := Whole(fin, a);
    forall i | 0 <= i < |all|
      ensures all[i].start < b
    {
      assert Standing(lc, |fin|, a, all, i);
      if a.current.Some? {
        assert all[|all| - 1] == a.current.value;
      }
    }
  }

  lemma BookPlaced(lc: int, fin: seq<Bar>, a: Agg, t: Trade, oi: nat)
    requires a.step > 0 && Placed(lc, fin, a) && |Whole(fin, a)| > 0
    ensures Placed(lc, fin, Book(a, t, oi))
  {
    var b := Bucket(t.ts, a.step);
    BucketAligned(t.ts, a.step);
    BookEffect(fin, a, t, oi);
    var a2 := Book(a, t, oi);
    var all, all2 := Whole(fin, a), Whole(fin, a2);
    assert Standing(lc, |fin|, a, all, 0);
    if PlaceOf(a, b).Next? {
      NextIsLatest(lc, fin, a, b);
      assert all2 == all + [NewBar(b, t.price, t.volume + a.carry, oi, false)];
    }
    forall i | 0 <= i < |all2|
      ensures Standing(lc, |fin|, a2, all2, i)
    {
      if i < |all| {
        assert Standing(lc, |fin|, a, all, i);
      }
    }
  }

  lemma {:induction false} PlainsApply(bs: seq<Bar>, e: Effect)
    requires e.Replaced? ==> e.index < |bs|
    ensures Plains(Apply(bs, e)) == match e
                                    case Unchanged => Plains(bs)
                                    case Appended(b) => Plains(bs) + [Plain(b)]
                                    case Replaced(i, b) => Plains(bs)[i := Plain(b)]
  {
  }

  /** A change of the bars that matches a change of the tape keeps the grouping. */
  lemma {:induction false} GroupsApply(ts: seq<Trade>, step: int, all: seq<Bar>, e: Effect, t: Trade)
    requires step > 0 && IsGroupBy(ts, step, Plains(all))
    requires e.Appended? ==>
               Plain(e.bar) == FirstOf(t, step) && forall i :: 0 <= i < |all| ==> all[i].start < Bucket(t.ts, step)
    requires e.Replaced? ==>
               && e.index < |all| && all[e.index].start == Bucket(t.ts, step)
               && Plain(e.bar) == Grown(Plain(all[e.index]), t)
    ensures IsGroupBy(if e.Unchanged? then ts else ts + [t], step, Plains(Apply(all, e)))
  {
    PlainsApply(all, e);
    match e
    case Unchanged =>
    case Appended(_) => GroupStarts(ts, step, Plains(all), t);
    case Replaced(i, _) => GroupGrows(ts, step, Plains(all), i, t);
  }

  /** A booked trade extends the grouping. */
  lemma BookGroups(lc: int, fin: seq<Bar>, a: Agg, ts: seq<Trade>, t: Trade, oi: nat)
    requires a.step > 0 && Placed(lc, fin, a)
    requires IsGroupBy(ts, a.step, Plains(Whole(fin, a)))
    ensures IsGroupBy(ts + BookedBy(a, t), a.step, Plains(Whole(fin, Book(a, t, oi))))
  {
    BookEffect(fin, a, t, oi);
    var e := EffectOf(fin, a, t, oi);
    var booked := BookedTrade(a, t);
    if e.Appended? {
      BucketAligned(t.ts, a.step);
      NextIsLatest(lc, fin, a, Bucket(t.ts, a.step));
    }
    EffectMatches(fin, a, t, oi);
    GroupsApply(ts, a.step, Whole(fin, a), e, booked);
    assert ts + BookedBy(a, t) == if e.Unchanged? then ts else ts + [booked];
  }

  ghost function BookedTrade(a: Agg, t: Trade): Trade
    requires a.step > 0
  {
    if PlaceOf(a, Bucket(t.ts, a.step)).Next? then t.(volume := t.volume + a.carry) else t
  }

  lemma EffectMatches(fin: seq<Bar>, a: Agg, t: Trade, oi: nat)
    requires a.step > 0
    ensures var e, booked := EffectOf(fin, a, t, oi), BookedTrade(a, t);
            && BookedBy(a, t) == (if e.Unchanged? then [] else [booked])
            && (e.Appended? ==> Plain(e.bar) == FirstOf(booked, a.step))
            && (e.Replaced? ==> Plain(e.bar) == Grown(Plain(Whole(fin, a)[e.index]), booked))
            && Bucket(booked.ts, a.step) == Bucket(t.ts, a.step)
  {
  }

  /** A trade's volume is in a bar or in the carry. */
  lemma BookVolume(fin: seq<Bar>, a: Agg, t: Trade, oi: nat)
    requires a.step > 0
    ensures BarVolume(Whole(fin, Book(a, t, oi))) + Book(a, t, oi).carry
            == BarVolume(Whole(fin, a)) + a.carry + t.volume
  {
    BookEffect(fin, a, t, oi);
    var all := Whole(fin, a);
    match EffectOf(fin, a, t, oi)
    case Unchanged =>
    case Appended(b) =>
      assert Front(all + [b]) == all;
    case Replaced(i, b) =>
      BarVolumeUpdate(all, i, b);
  }

  // ------------------------------------------------------------- closing bars

  lemma {:induction false} ClosedUpToLast(lastClose: int, done: seq<Bar>, step: int)
    requires Ascending(done) && step > 0
    requires forall i :: 0 <= i < |done| ==> done[i].start + step > lastClose
    ensures ClosedUpTo(lastClose, done, step) == if |done| == 0 then lastClose else Last(done).start + step
  {
    if |done| > 0 {
      ClosedUpToLast(lastClose, Front(done), step);
      if |done| > 1 {
        assert Last(Front(done)) == done[|done| - 2];
      }
    }
  }

  /** Closing hands over a prefix of the open bars and keeps the rest. */
  lemma CloseSplitsOpen(a: Agg, now: int)
    requires a.current.None? ==> a.closing == []
    ensures Finished(a, now) + OpenBars(AfterClock(a, now)) == OpenBars(a)
    ensures AfterClock(a, now).current.None? ==> OpenBars(AfterClock(a, now)) == []
  {
    var k := DueCount(a.closing, a.step, now);
    assert a.closing[..k] + a.closing[k..] == a.closing;
  }

  lemma CloseSplits(fin: seq<Bar>, a: Agg, now: int)
    requires a.current.None? ==> a.closing == []
    ensures Finished(a, now) + OpenBars(AfterClock(a, now)) == OpenBars(a)
    ensures Whole(fin + Finished(a, now), AfterClock(a, now)) == Whole(fin, a)
    ensures AfterClock(a, now).current.None? ==> OpenBars(AfterClock(a, now)) == []
  {
    CloseSplitsOpen(a, now);
    var done, open2 := Finished(a, now), OpenBars(AfterClock(a, now));
    assert (fin + done) + open2 == fin + (done + open2);
  }

  lemma OpenFacts(lc: int, fin: seq<Bar>, a: Agg)
    requires a.step > 0 && Placed(lc, fin, a)
    ensures Ascending(OpenBars(a))
    ensures a.current.None? ==> a.closing == []
    ensures forall i :: 0 <= i < |OpenBars(a)| ==> OpenBars(a)[i].start + a.step > a.lastClose
  {
    var open, all := OpenBars(a), Whole(fin, a);
    forall i | 0 <= i < |open|
      ensures open[i].start + a.step > a.lastClose && a.current.Some?
      ensures forall j :: i < j < |open| ==> open[i].start < open[j].start
    {
      assert Standing(lc, |fin|, a, all, |fin| + i);
      forall j | i < j < |open|
        ensures open[i].start < open[j].start
      {
        assert all[|fin| + i].start < all[|fin| + j].start;
      }
    }
    if |a.closing| > 0 {
      assert open[0].start + a.step > a.lastClose;
    }
  }

  /** Closing moves `lastClose` exactly to the end of the last finished bar. */
  lemma CloseEnd(lc: int, fin: seq<Bar>, a: Agg, now: int)
    requires a.step > 0 && Placed(lc, fin, a)
    ensures var done := Finished(a, now);
            AfterClock(a, now).lastClose == if |done| == 0 then a.lastClose else Last(done).start + a.step
  {
    OpenFacts(lc, fin, a);
    CloseSplits(fin, a, now);
    var done := Finished(a, now);
    assert forall i :: 0 <= i < |done| ==> done[i] == OpenBars(a)[i];
    ClosedUpToLast(a.lastClose, done, a.step);
  }

  lemma CloseAdvances(lc: int, fin: seq<Bar>, a: Agg, now: int)
    requires a.step > 0 && Placed(lc, fin, a)
    ensures AfterClock(a, now).lastClose >= a.lastClose
  {
    OpenFacts(lc, fin, a);
    CloseEnd(lc, fin, a, now);
    CloseSplits(fin, a, now);
    var done := Finished(a, now);
    if |done| > 0 {
      assert Last(done) == OpenBars(a)[|done| - 1];
    }
  }

  lemma ClosePlaced(lc: int, fin: seq<Bar>, a: Agg, now: int)
    requires a.step > 0 && Placed(lc, fin, a)
    ensures Placed(lc, fin + Finished(a, now), AfterClock(a, now))
    ensures Whole(fin + Finished(a, now), AfterClock(a, now)) == Whole(fin, a)
  {
    var b, done := AfterClock(a, now), Finished(a, now);
    OpenFacts(lc, fin, a);
    CloseSplits(fin, a, now);
    CloseEnd(lc, fin, a, now);
    var w, n := Whole(fin, a), |fin + done|;
    forall i | 0 <= i < |w|
      ensures Standing(lc, n, b, w, i)
    {
      CloseStanding(lc, fin, a, done, b, i);
    }
  }

  lemma CloseStanding(lc: int, fin: seq<Bar>, a: Agg, done: seq<Bar>, b: Agg, i: nat)
    requires a.step > 0 && Placed(lc, fin, a) && fin + done <= Whole(fin, a) && b.step == a.step
    requires b.lastClose == if |done| == 0 then a.lastClose else Last(done).start + a.step
    requires b.current.None? ==> fin + done == Whole(fin, a)
    requires i < |Whole(fin, a)|
    ensures Standing(lc, |fin + done|, b, Whole(fin, a), i)
  {
    var w := Whole(fin, a);
    var n := |fin + done|;
    assert Standing(lc, |fin|, a, w, i);
    if |done| > 0 {
      assert Last(done) == w[n - 1];
      assert Standing(lc, |fin|, a, w, n - 1);
      assert i < n - 1 ==> w[i].start < w[n - 1].start;
    }
  }

  /** No bar is finished before its grace is over, and none that is due at `now` stays open. */
  lemma CloseOnTime(lc: int, fin: seq<Bar>, a: Agg, now: int)
    requires a.step > 0 && Placed(lc, fin, a)
    ensures forall i :: 0 <= i < |Finished(a, now)| ==> DueMs(Finished(a, now)[i].start, a.step) <= now
    ensures forall i :: 0 <= i < |OpenBars(AfterClock(a, now))| ==>
            now < DueMs(OpenBars(AfterClock(a, now))[i].start, a.step)
  {
    ClosePlaced(lc, fin, a, now);
    OpenFacts(lc, fin + Finished(a, now), AfterClock(a, now));
    OpenFacts(lc, fin, a);
    FirstOpenWaits(a, now);
    RestWaits(OpenBars(AfterClock(a, now)), a.step, now);
  }

  lemma FirstOpenWaits(a: Agg, now: int)
    requires a.current.None? ==> a.closing == []
    ensures var open := OpenBars(AfterClock(a, now)); |open| > 0 ==> now < DueMs(open[0].start, a.step)
  {
  }

  lemma RestWaits(open: seq<Bar>, step: int, now: int)
    requires Ascending(open) && (|open| > 0 ==> now < DueMs(open[0].start, step))
    ensures forall i :: 0 <= i < |open| ==> now < DueMs(open[i].start, step)
  {
    forall i | 0 <= i < |open|
      ensures now < DueMs(open[i].start, step)
    {
      assert open[0].start <= open[i].start;
    }
  }

  // ------------------------------------------------------------ the run invariant

  /** The latest trade time of the packets. */
  ghost function LatestTrade(ps: seq<Packet>): Option<int>
    requires Sane(ps)
  {
    if |ps| == 0 then None
    else if |ps| == 1 then Some(TradeTime(ps[0]))
    else Some(Max(LatestTrade(Front(ps)).value, TradeTime(Last(ps))))
  }

  lemma {:induction false} LatestIsMax(ps: seq<Packet>, t: int)
    requires Sane(ps) && |ps| > 0
    ensures t > LatestTrade(ps).value <==> forall j :: 0 <= j < |ps| ==> TradeTime(ps[j]) < t
  {
    if |ps| > 1 {
      LatestIsMax(Front(ps), t);
      assert forall j :: 0 <= j < |ps| - 1 ==> ps[j] == Front(ps)[j];
    }
  }

  /** What the aggregator remembers of the packets. */
  ghost function Memory(ps: seq<Packet>): (bool, Option<nat>, Option<int>)
    requires Sane(ps)
  {
    if |ps| == 0 then (false, None, None) else (true, Last(ps).cumulative, LatestTrade(ps))
  }

  ghost predicate Tape(a: Agg, ps: seq<Packet>) {
    Sane(ps) && (a.started, a.lastVolume, a.lastTrade) == Memory(ps)
  }

  /** The volume traded between the first and the last packet. */
  ghost function Traded(ps: seq<Packet>): int
    requires Sane(ps)
  {
    if |ps| == 0 then 0 else Last(ps).cumulative.value - ps[0].cumulative.value
  }

  /** The first packet came after the start of its bar. */
  ghost predicate JoinedPartWay(ps: seq<Packet>, step: int)
    requires Sane(ps) && step > 0
  {
    |ps| > 0 && ps[0].ts.value > Bucket(ps[0].ts.value, step)
  }

  ghost predicate Punctual(a: Agg, ps: seq<Packet>, booked: seq<Trade>)
    requires Sane(ps)
  {
    && |booked| + a.late == |TradesOf(ps)|
    && (a.late == 0 ==> a.carry == 0 && booked == TradesOf(ps))
  }

  /** Only the first bar can be part-way, and it is the bar of the first packet. */
  ghost predicate Joined(bs: seq<Bar>, ps: seq<Packet>, step: int)
    requires Sane(ps) && step > 0
  {
    && (|bs| > 0 <==> |ps| > 0)
    && (forall i :: 0 <= i < |bs| ==>
          && (bs[i].partial <==> i == 0 && JoinedPartWay(ps, step))
          && (i == 0 ==> bs[i].start == Bucket(ps[0].ts.value, step)))
  }

  ghost predicate Inv(lc: int, step: int, r: Run)
    requires step > 0
  {
    && r.agg.step == step && r.agg.lastClose >= lc
    && Placed(lc, r.finished, r.agg)
    && Tape(r.agg, r.packets)
    && Joined(Bars(r), r.packets, step)
    && IsGroupBy(r.booked, step, Plains(Bars(r)))
    && BarVolume(Bars(r)) + r.agg.carry == Traded(r.packets)
    && Punctual(r.agg, r.packets, r.booked)
    && r.out == Published(r.finished)
  }

  /** The runs that satisfy the invariant. */
  ghost function Sound(lc: int, step: int): iset<Run>
    requires step > 0
  {
    iset r: Run | Inv(lc, step, r)
  }

  /** A run made of parts that satisfy the invariant. */
  lemma {:induction false} IntoSound(
      lc: int, step: int, a: Agg, ps: seq<Packet>, booked: seq<Trade>, fin: seq<Bar>, out: seq<Candle>)
    requires step > 0 && a.step == step && a.lastClose >= lc && out == Published(fin)
    requires (var placed := Placed(lc, fin, a); placed)
    requires (var tape := Tape(a, ps); tape)
    requires (var joined := Joined(Whole(fin, a), ps, step); joined)
    requires (var grouped := IsGroupBy(booked, step, Plains(Whole(fin, a))); grouped)
    requires BarVolume(Whole(fin, a)) + a.carry == Traded(ps)
    requires (var punctual := Punctual(a, ps, booked); punctual)
    ensures Run(a, ps, booked, fin, out) in Sound(lc, step)
  {
  }

  lemma InvStart(lc: int, step: int)
    requires step > 0
    ensures Start(lc, step) in Sound(lc, step)
  {
  }

  /** What acceptance of `p` says about the packet and the bookkeeping fields. */
  ghost predicate Noted(a: Agg, p: Packet, b: Agg) {
    && Complete(p) && b.started && b.lastVolume == p.cumulative && b.step == a.step
    && (a.lastVolume.Some? ==> p.cumulative.value >= a.lastVolume.value)
    && b.lastTrade == Some(if a.started && a.lastTrade.Some? then Max(a.lastTrade.value, TradeTime(p))
       else TradeTime(p))
  }

  lemma AcceptedIsNoted(a: Agg, p: Packet)
    requires a.step > 0 && AfterPacket(a, p).1.None?
    ensures Noted(a, p, AfterPacket(a, p).0)
  {
  }

  lemma TapeGrows(a: Agg, ps: seq<Packet>, p: Packet, b: Agg)
    requires Tape(a, ps) && Noted(a, p, b)
    ensures Tape(b, ps + [p])
    ensures |ps| > 0 ==> Delta(a, p.cumulative.value) == p.cumulative.value - Last(ps).cumulative.value
    ensures |ps| > 0 ==> (IsNewTrade(a, p, Delta(a, p.cumulative.value)) <==> IsTrade(ps + [p], |ps|))
  {
    var more := ps + [p];
    var n := |ps|;
    assert more[n] == p;
    assert forall j :: 0 <= j < n ==> more[j] == ps[j];
    assert Front(more) == ps;
    if n > 0 {
      LatestIsMax(ps, TradeTime(p));
      assert IsTrade(more, n) <==> (more[n].cumulative.value > more[n - 1].cumulative.value
                                    || forall j :: 0 <= j < n ==> TradeTime(ps[j]) < TradeTime(p));
    }
  }

  lemma NothingYet(lc: int, step: int, r: Run)
    requires step > 0 && r in Sound(lc, step) && |r.packets| == 0
    ensures r.packets == [] && r.finished == [] && r.agg.closing == [] && r.booked == [] && r.out == []
  {
    assert Bars(r) == [];
    TapeHasBars(r.booked, step, Plains(Bars(r)));
  }

  /** The first packet's bar stands alone. */
  lemma JoinPlaced(lc: int, b: Agg, bar: Bar)
    requires b.step > 0 && b.closing == [] && b.current == Some(bar)
    requires Aligned(bar.start, b.step) && lc <= b.lastClose <= bar.start
    ensures Whole([], b) == [bar] && Placed(lc, [], b)
  {
    assert Whole([], b) == [bar];
    assert Standing(lc, 0, b, [bar], 0);
  }

  lemma JoinTape(a: Agg, p: Packet, b: Agg)
    requires Tape(a, []) && Punctual(a, [], []) && Noted(a, p, b) && b.carry == a.carry && b.late == a.late
    ensures Tape(b, [p]) && Traded([p]) == 0 && Punctual(b, [p], [Trade(p.ts.value, p.price.value, 0)])
  {
    TapeGrows(a, [], p, b);
    assert [] + [p] == [p];
    FirstTrade(p);
  }

  lemma FirstTrade(p: Packet)
    requires Complete(p)
    ensures TradesOf([p]) == [Trade(p.ts.value, p.price.value, 0)] && TradesOf([]) == []
  {
    assert IsTrade([p], 0);
    assert Front([p]) == [];
    assert TradesOf([p]) == [] + [TradeOf([p], 0)];
  }

  lemma JoinJoined(p: Packet, step: int, bar: Bar)
    requires step > 0 && Complete(p) && bar.start == Bucket(p.ts.value, step)
    requires bar.partial <==> p.ts.value > Bucket(p.ts.value, step)
    ensures Joined([bar], [p], step)
  {
  }

  /** The first packet's bar. */
  lemma JoinKeeps(lc: int, step: int, r: Run, p: Packet, b: Agg, bar: Bar)
    requires step > 0 && r in Sound(lc, step) && |r.packets| == 0 && Noted(r.agg, p, b)
    requires bar == NewBar(Bucket(p.ts.value, step), p.price.value, 0, p.oi, p.ts.value > Bucket(p.ts.value, step))
    requires b.closing == r.agg.closing && b.current == Some(bar) && b.lastClose == r.agg.lastClose <= bar.start
    requires b.carry == r.agg.carry && b.late == r.agg.late
    ensures Run(b, [p], [Trade(p.ts.value, p.price.value, 0)], r.finished, r.out) in Sound(lc, step)
    ensures r.packets == [] && r.booked == []
  {
    NothingYet(lc, step, r);
    JoinTape(r.agg, p, b);
    BucketAligned(p.ts.value, step);
    JoinPlaced(lc, b, bar);
    JoinJoined(p, step, bar);
    FirstBarGroups(step, p, bar);
    IntoSound(lc, step, b, [p], [Trade(p.ts.value, p.price.value, 0)], [], []);
  }

  lemma FirstBarGroups(step: int, p: Packet, bar: Bar)
    requires step > 0 && Complete(p)
    requires Plain(bar) == FirstOf(Trade(p.ts.value, p.price.value, 0), step)
    ensures IsGroupBy([Trade(p.ts.value, p.price.value, 0)], step, Plains([bar]))
    ensures bar.volume == 0 && BarVolume([bar]) == 0
  {
    var t := Trade(p.ts.value, p.price.value, 0);
    GroupStarts([], step, [], t);
    assert [] + [t] == [t];
    assert Plains([bar]) == [] + [FirstOf(t, step)];
    assert Front([bar]) == [];
  }

  function Refreshed(a: Agg, oi: nat): Agg {
    if a.current.Some? then a.(current := Some(a.current.value.(oi := oi))) else a
  }

  /** A quote refresh changes no bar's prices or volume. */
  lemma RefreshKeeps(lc: int, fin: seq<Bar>, a: Agg, oi: nat)
    requires a.step > 0 && Placed(lc, fin, a)
    ensures Placed(lc, fin, Refreshed(a, oi))
    ensures var all, all2 := Whole(fin, a), Whole(fin, Refreshed(a, oi));
            && Plains(all2) == Plains(all) && BarVolume(all2) == BarVolume(all)
            && |all| == |all2| && forall i :: 0 <= i < |all| ==>
               all2[i].partial == all[i].partial && all2[i].start == all[i].start
  {
    if a.current.Some? {
      var all := Whole(fin, a);
      var b := Refreshed(a, oi);
      var all2 := Whole(fin, b);
      assert all2 == all[|all| - 1 := b.current.value];
      BarVolumeUpdate(all, |all| - 1, b.current.value);
      forall i | 0 <= i < |all2|
        ensures Standing(lc, |fin|, b, all2, i)
      {
        assert Standing(lc, |fin|, a, all, i);
      }
    }
  }

  /** The bookkeeping of a later packet, before its trade is booked. */
  function Observed(a: Agg, p: Packet): Agg
    requires Complete(p) && a.lastTrade.Some?
  {
    a.(generation := Some(p.generation), lastVolume := p.cumulative, lastExchange := p.ts,
       lastTrade := Some(Max(a.lastTrade.value, TradeTime(p))))
  }

  lemma LaterPacket(a: Agg, p: Packet)
    requires a.step > 0 && a.started && a.lastTrade.Some? && AfterPacket(a, p).1.None?
    ensures Complete(p) && (a.lastVolume.Some? ==> p.cumulative.value >= a.lastVolume.value)
    ensures var delta := Delta(a, p.cumulative.value);
            AfterPacket(a, p).0 == if IsNewTrade(a, p, delta)
                                   then Book(Observed(a, p), Trade(TradeTime(p), p.price.value, delta), p.oi)
                                   else Refreshed(Observed(a, p), p.oi)
  {
  }

  lemma ObservedKeeps(lc: int, fin: seq<Bar>, a: Agg, p: Packet, t: Trade)
    requires Complete(p) && a.lastTrade.Some? && a.step > 0 && Placed(lc, fin, a)
    ensures Placed(lc, fin, Observed(a, p)) && Whole(fin, Observed(a, p)) == Whole(fin, a)
    ensures BookedBy(Observed(a, p), t) == BookedBy(a, t)
  {
    var o := Observed(a, p);
    forall i | 0 <= i < |Whole(fin, o)|
      ensures Standing(lc, |fin|, o, Whole(fin, o), i)
    {
      assert Standing(lc, |fin|, a, Whole(fin, a), i);
    }
  }

  /** A later packet `p` brings trade `t`. */
  ghost predicate Brings(a: Agg, p: Packet, t: Trade) {
    && a.started && a.lastTrade.Some? && a.lastVolume.Some?
    && Complete(p) && p.cumulative.value >= a.lastVolume.value
    && t == Trade(TradeTime(p), p.price.value, p.cumulative.value - a.lastVolume.value)
    && IsNewTrade(a, p, t.volume)
  }

  lemma TradePlaced(lc: int, fin: seq<Bar>, a: Agg, ps: seq<Packet>, p: Packet, t: Trade)
    requires a.step > 0 && Brings(a, p, t) && Placed(lc, fin, a) && Sane(ps + [p]) && Sane(ps) && |ps| > 0
             && Joined(Whole(fin, a), ps, a.step)
    ensures Placed(lc, fin, Book(Observed(a, p), t, p.oi))
    ensures Joined(Whole(fin, Book(Observed(a, p), t, p.oi)), ps + [p], a.step)
  {
    var o := Observed(a, p);
    ObservedKeeps(lc, fin, a, p, t);
    BookPlaced(lc, fin, o, t, p.oi);
    BookJoined(fin, o, t, p.oi, ps, p);
  }

  lemma TradeGroups(lc: int, fin: seq<Bar>, a: Agg, booked: seq<Trade>, p: Packet, t: Trade)
    requires a.step > 0 && Brings(a, p, t) && Placed(lc, fin, a) && IsGroupBy(booked, a.step, Plains(Whole(fin, a)))
    ensures IsGroupBy(booked + BookedBy(a, t), a.step, Plains(Whole(fin, Book(Observed(a, p), t, p.oi))))
  {
    ObservedKeeps(lc, fin, a, p, t);
    BookGroups(lc, fin, Observed(a, p), booked, t, p.oi);
  }

  lemma TradeVolume(fin: seq<Bar>, a: Agg, ps: seq<Packet>, p: Packet, t: Trade)
    requires a.step > 0 && Brings(a, p, t) && Tape(a, ps)
    requires BarVolume(Whole(fin, a)) + a.carry == Traded(ps)
    ensures var b := Book(Observed(a, p), t, p.oi);
            && Tape(b, ps + [p])
            && BarVolume(Whole(fin, b)) + b.carry == Traded(ps + [p])
  {
    assert Whole(fin, Observed(a, p)) == Whole(fin, a);
    TapeGrows(a, ps, p, Book(Observed(a, p), t, p.oi));
    TapeEnds(ps, p);
    BookVolume(fin, Observed(a, p), t, p.oi);
  }

  lemma TradePunctual(a: Agg, ps: seq<Packet>, booked: seq<Trade>, p: Packet, t: Trade)
    requires a.step > 0 && Brings(a, p, t) && Tape(a, ps) && Punctual(a, ps, booked)
    ensures Sane(ps + [p])
    ensures Punctual(Book(Observed(a, p), t, p.oi), ps + [p], booked + BookedBy(a, t))
  {
    TapeGrows(a, ps, p, Book(Observed(a, p), t, p.oi));
    TapeEnds(ps, p);
  }

  lemma TradeBars(lc: int, fin: seq<Bar>, a: Agg, ps: seq<Packet>, booked: seq<Trade>, p: Packet, t: Trade)
    requires a.step > 0 && Brings(a, p, t) && Placed(lc, fin, a) && Sane(ps + [p]) && Sane(ps) && |ps| > 0
    requires Joined(Whole(fin, a), ps, a.step) && IsGroupBy(booked, a.step, Plains(Whole(fin, a)))
    ensures var b := Book(Observed(a, p), t, p.oi);
            && Placed(lc, fin, b) && Joined(Whole(fin, b), ps + [p], a.step)
            && IsGroupBy(booked + BookedBy(a, t), a.step, Plains(Whole(fin, b)))
  {
    TradePlaced(lc, fin, a, ps, p, t);
    TradeGroups(lc, fin, a, booked, p, t);
  }

  lemma TradeBooks(fin: seq<Bar>, a: Agg, ps: seq<Packet>, booked: seq<Trade>, p: Packet, t: Trade)
    requires a.step > 0 && Brings(a, p, t) && Tape(a, ps) && Punctual(a, ps, booked)
    requires BarVolume(Whole(fin, a)) + a.carry == Traded(ps)
    ensures var b := Book(Observed(a, p), t, p.oi);
            && Tape(b, ps + [p]) && b.lastClose == a.lastClose && b.step == a.step
            && BarVolume(Whole(fin, b)) + b.carry == Traded(ps + [p])
            && Punctual(b, ps + [p], booked + BookedBy(a, t))
  {
    TradeVolume(fin, a, ps, p, t);
    TradePunctual(a, ps, booked, p, t);
  }

  /** A later packet that brings a trade. */
  lemma TradeKeeps(lc: int, step: int, r: Run, p: Packet, t: Trade)
    requires step > 0 && r in Sound(lc, step) && Brings(r.agg, p, t)
    ensures Run(Book(Observed(r.agg, p), t, p.oi), r.packets + [p], r.booked + BookedBy(r.agg, t), r.finished, r.out)
            in Sound(lc, step)
  {
    TradeBooks(r.finished, r.agg, r.packets, r.booked, p, t);
    TradeBars(lc, r.finished, r.agg, r.packets, r.booked, p, t);
    var b := Book(Observed(r.agg, p), t, p.oi);
    IntoSound(lc, step, b, r.packets + [p], r.booked + BookedBy(r.agg, t), r.finished, r.out);
  }

  lemma BookJoined(fin: seq<Bar>, a: Agg, t: Trade, oi: nat, ps: seq<Packet>, p: Packet)
    requires a.step > 0 && Sane(ps) && Sane(ps + [p]) && |ps| > 0 && Joined(Whole(fin, a), ps, a.step)
    ensures Joined(Whole(fin, Book(a, t, oi)), ps + [p], a.step)
  {
    BookEffect(fin, a, t, oi);
    assert (ps + [p])[0] == ps[0];
  }

  lemma {:induction false} TapeEnds(ps: seq<Packet>, p: Packet)
    requires |ps| > 0 && Sane(ps) && Complete(p) && Sane(ps + [p])
    ensures Traded(ps + [p]) == Traded(ps) + p.cumulative.value - Last(ps).cumulative.value
    ensures TradesOf(ps + [p]) == TradesOf(ps) + (if IsTrade(ps + [p], |ps|) then [TradeOf(ps + [p], |ps|)] else [])
    ensures forall step :: step > 0 ==> (JoinedPartWay(ps + [p], step) <==> JoinedPartWay(ps, step))
  {
    assert Front(ps + [p]) == ps;
    assert (ps + [p])[0] == ps[0];
  }

  /** A later packet `p` only refreshes the quote. */
  ghost predicate Refreshes(a: Agg, p: Packet) {
    && a.started && a.lastTrade.Some? && a.lastVolume.Some?
    && Complete(p) && p.cumulative.value >= a.lastVolume.value
    && !IsNewTrade(a, p, p.cumulative.value - a.lastVolume.value)
  }

  lemma QuoteKeeps(lc: int, step: int, r: Run, p: Packet)
    requires step > 0 && r in Sound(lc, step) && Refreshes(r.agg, p)
    ensures Run(Refreshed(Observed(r.agg, p), p.oi), r.packets + [p], r.booked, r.finished, r.out) in Sound(lc, step)
  {
    QuoteTape(r.agg, r.packets, r.booked, p);
    QuotePlaced(lc, r.finished, r.agg, r.packets, p);
    IntoSound(lc, step, Refreshed(Observed(r.agg, p), p.oi), r.packets + [p], r.booked, r.finished, r.out);
  }

  lemma QuoteTape(a: Agg, ps: seq<Packet>, booked: seq<Trade>, p: Packet)
    requires Refreshes(a, p) && Tape(a, ps) && Punctual(a, ps, booked)
    ensures Tape(Refreshed(Observed(a, p), p.oi), ps + [p])
    ensures Traded(ps + [p]) == Traded(ps)
    ensures Punctual(Refreshed(Observed(a, p), p.oi), ps + [p], booked)
  {
    TapeGrows(a, ps, p, Refreshed(Observed(a, p), p.oi));
    TapeEnds(ps, p);
  }

  lemma QuotePlaced(lc: int, fin: seq<Bar>, a: Agg, ps: seq<Packet>, p: Packet)
    requires a.step > 0 && Refreshes(a, p) && Placed(lc, fin, a) && Sane(ps + [p]) && Sane(ps) && |ps| > 0
             && Joined(Whole(fin, a), ps, a.step)
    ensures var b := Refreshed(Observed(a, p), p.oi);
            && Placed(lc, fin, b)
            && Plains(Whole(fin, b)) == Plains(Whole(fin, a)) && BarVolume(Whole(fin, b)) == BarVolume(Whole(fin, a))
            && Joined(Whole(fin, b), ps + [p], a.step)
  {
    ObservedKeeps(lc, fin, a, p, Trade(0, 0.0, 0));
    RefreshKeeps(lc, fin, Observed(a, p), p.oi);
    assert (ps + [p])[0] == ps[0];
  }

  lemma {:induction false} PublishedSplit(a: seq<Bar>, b: seq<Bar>)
    ensures Published(a + b) == Published(a) + Published(b)
  {
    if |b| == 0 {
      assert a + b == a;
    } else {
      assert Front(a + b) == a + Front(b);
      PublishedSplit(a, Front(b));
    }
  }

  lemma ClockKeeps(lc: int, step: int, r: Run, now: int)
    requires step > 0 && r in Sound(lc, step)
    ensures After(r, Tick(now)).value in Sound(lc, step)
  {
    ClockSound(lc, step, r.agg, r.packets, r.booked, r.finished, r.out, now);
  }

  lemma ClockSound(
      lc: int, step: int, a: Agg, ps: seq<Packet>, booked: seq<Trade>, fin: seq<Bar>, out: seq<Candle>, now: int)
    requires step > 0 && Run(a, ps, booked, fin, out) in Sound(lc, step)
    ensures Run(AfterClock(a, now), ps, booked, fin + Finished(a, now), out + Published(Finished(a, now)))
            in Sound(lc, step)
  {
    ClockParts(lc, fin, a, ps, booked, now);
    PublishedSplit(fin, Finished(a, now));
    IntoSound(lc, step, AfterClock(a, now), ps, booked, fin + Finished(a, now), out + Published(Finished(a, now)));
  }

  lemma ClockParts(lc: int, fin: seq<Bar>, a: Agg, ps: seq<Packet>, booked: seq<Trade>, now: int)
    requires a.step > 0 && Placed(lc, fin, a)
    ensures Placed(lc, fin + Finished(a, now), AfterClock(a, now))
    ensures Whole(fin + Finished(a, now), AfterClock(a, now)) == Whole(fin, a)
    ensures AfterClock(a, now).lastClose >= a.lastClose
    ensures Tape(a, ps) ==> Tape(AfterClock(a, now), ps)
    ensures Sane(ps) && Punctual(a, ps, booked) ==> Punctual(AfterClock(a, now), ps, booked)
  {
    ClosePlaced(lc, fin, a, now);
    CloseAdvances(lc, fin, a, now);
  }

  lemma PacketKeeps(lc: int, step: int, r: Run, p: Packet)
    requires step > 0 && r in Sound(lc, step) && After(r, Seen(p)).Some?
    ensures After(r, Seen(p)).value in Sound(lc, step)
  {
    if |r.packets| == 0 {
      AcceptedIsNoted(r.agg, p);
      FirstPacket(r.agg, p);
      var b := AfterPacket(r.agg, p).0;
      JoinKeeps(lc, step, r, p, b, b.current.value);
      assert [] + [p] == [p];
      assert [] + Arrival(r.agg, p) == Arrival(r.agg, p);
    } else {
      LaterKeeps(lc, step, r, p);
    }
  }

  lemma LaterKeeps(lc: int, step: int, r: Run, p: Packet)
    requires step > 0 && r in Sound(lc, step) && |r.packets| > 0 && After(r, Seen(p)).Some?
    ensures After(r, Seen(p)).value in Sound(lc, step)
  {
    LaterPacket(r.agg, p);
    var delta := p.cumulative.value - r.agg.lastVolume.value;
    if IsNewTrade(r.agg, p, delta) {
      TradeKeeps(lc, step, r, p, Trade(TradeTime(p), p.price.value, delta));
    } else {
      QuoteKeeps(lc, step, r, p);
      assert r.booked + [] == r.booked;
    }
  }

  lemma FirstPacket(a: Agg, p: Packet)
    requires a.step > 0 && !a.started && AfterPacket(a, p).1.None?
    ensures Complete(p)
    ensures var b := AfterPacket(a, p).0;
            var start := Bucket(p.ts.value, a.step);
            && b.current == Some(NewBar(start, p.price.value, 0, p.oi, p.ts.value > start))
            && b.closing == a.closing && b.lastClose == a.lastClose <= start && b.carry == a.carry && b.late == a.late
  {
  }

  lemma {:induction false} ExecKeeps(lc: int, step: int, es: seq<Event>)
    requires step > 0 && Exec(lc, step, es).Some?
    ensures Exec(lc, step, es).value in Sound(lc, step)
  {
    if |es| == 0 {
      InvStart(lc, step);
    } else {
      ExecKeeps(lc, step, Front(es));
      var r := Exec(lc, step, Front(es)).value;
      match Last(es)
      case Seen(p) => PacketKeeps(lc, step, r, p);
      case Tick(now) => ClockKeeps(lc, step, r, now);
    }
  }
}
