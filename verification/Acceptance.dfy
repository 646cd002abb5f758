/** Which packets a run accepts, where an accepted one goes, and which trades come too late. */
module Acceptance {
  import opened Common
  import opened Candles
  import opened Grouping
  import opened CandleRuns
  import opened CandleStream

  lemma {:induction false} SeenMore(lc: int, step: int, es: seq<Event>, p: Packet)
    requires step > 0 && Exec(lc, step, es).Some?
    ensures Exec(lc, step, es + [Seen(p)]) == After(Exec(lc, step, es).value, Seen(p))
    ensures PacketsOf(es + [Seen(p)]) == PacketsOf(es) + [p]
  {
    assert Front(es + [Seen(p)]) == es;
  }

  // ------------------------------------------------------------ what is accepted

  /** The packet by itself: live and full, with a time, a positive price and a volume, received 2 s before to
      10 s after its time, its trade at most 2 s after it. */
  predicate WellFormed(p: Packet) {
    && p.live && p.full && p.ts.Some? && p.price.Some? && p.price.value > 0.0 && p.cumulative.Some?
    && -2 <= p.received - p.ts.value <= 10
    && (p.tradeTs.Some? ==> p.tradeTs.value <= p.ts.value + 2)
  }

  /** The packet after those before it: no time or volume goes back, the connection is the same. */
  ghost predicate Continues(ps: seq<Packet>, p: Packet)
    requires Sane(ps)
  {
    forall i :: 0 <= i < |ps| ==> Continued(ps[i], p)
  }

  predicate Continued(q: Packet, p: Packet) {
    && q.ts.Some? && p.ts.Some? && q.ts.value <= p.ts.value
    && q.cumulative.Some? && p.cumulative.Some? && q.cumulative.value <= p.cumulative.value
    && q.generation == p.generation
  }

  ghost predicate Acceptable(ps: seq<Packet>, p: Packet, lc: int, step: int)
    requires Sane(ps) && step > 0
  {
    WellFormed(p) && Continues(ps, p) && (|ps| == 0 ==> Bucket(p.ts.value, step) >= lc)
  }

  /** What the aggregator remembers to judge the next packet. */
  ghost predicate Remembers(a: Agg, ps: seq<Packet>, lc: int) {
    var ok :=
      if |ps| == 0 then a == Fresh(lc, a.step)
      else
        && a.started && a.lastExchange == Last(ps).ts && a.generation == Some(Last(ps).generation)
        && a.lastVolume == Last(ps).cumulative
        && forall i :: 0 <= i < |ps| ==> Continued(ps[i], Last(ps));
    ok
  }

  lemma PacketRemembered(a: Agg, ps: seq<Packet>, p: Packet, lc: int)
    requires a.step > 0 && Remembers(a, ps, lc) && AfterPacket(a, p).1.None?
    ensures Remembers(AfterPacket(a, p).0, ps + [p], lc)
  {
    var more, b := ps + [p], AfterPacket(a, p).0;
    assert b.lastExchange == p.ts && b.generation == Some(p.generation) && b.lastVolume == p.cumulative && b.started;
    forall i | 0 <= i < |more|
      ensures Continued(more[i], p)
    {
      if i < |ps| {
        assert Continued(ps[i], Last(ps));
      }
    }
  }

  lemma ClockRemembered(a: Agg, ps: seq<Packet>, now: int, lc: int)
    requires Remembers(a, ps, lc)
    ensures Remembers(AfterClock(a, now), ps, lc)
  {
  }

  lemma AfterIs(r: Run, e: Event)
    requires r.agg.step > 0 && After(r, e).Some?
    ensures var q := After(r, e).value;
            && (e.Seen? ==> AfterPacket(r.agg, e.p).1.None?)
            && (e.Seen? ==> q.agg == AfterPacket(r.agg, e.p).0 && q.finished == r.finished)
            && (e.Tick? ==> q.agg == AfterClock(r.agg, e.now) && q.finished == r.finished + Finished(r.agg, e.now))
  {
  }

  lemma EventRemembered(r: Run, e: Event, ps: seq<Packet>, lc: int)
    requires r.agg.step > 0 && Remembers(r.agg, ps, lc) && After(r, e).Some?
    ensures Remembers(After(r, e).value.agg, if e.Seen? then ps + [e.p] else ps, lc)
  {
    AfterIs(r, e);
    if e.Seen? {
      PacketRemembered(r.agg, ps, e.p, lc);
    } else {
      ClockRemembered(r.agg, ps, e.now, lc);
    }
  }

  lemma {:induction false} LastPacket(es: seq<Event>)
    requires |es| > 0
    ensures PacketsOf(es) == if Last(es).Seen? then PacketsOf(Front(es)) + [Last(es).p] else PacketsOf(Front(es))
  {
    assert PacketsOf(Front(es)) + [] == PacketsOf(Front(es));
  }

  lemma {:induction false} LastEvent(lc: int, step: int, es: seq<Event>) returns (r: Run)
    requires step > 0 && |es| > 0 && Exec(lc, step, es).Some?
    ensures Exec(lc, step, Front(es)) == Some(r) && r.agg.step == step && After(r, Last(es)) == Exec(lc, step, es)
  {
    r := Exec(lc, step, Front(es)).value;
  }

  lemma {:induction false} RunRemembers(lc: int, step: int, es: seq<Event>)
    requires step > 0 && Exec(lc, step, es).Some?
    ensures Remembers(Exec(lc, step, es).value.agg, PacketsOf(es), lc)
  {
    if |es| == 0 {
      assert Exec(lc, step, es) == Some(Start(lc, step));
    } else {
      var r := LastEvent(lc, step, es);
      RunRemembers(lc, step, Front(es));
      EventRemembered(r, Last(es), PacketsOf(Front(es)), lc);
      LastPacket(es);
    }
  }

  lemma AcceptanceIs(a: Agg, ps: seq<Packet>, p: Packet, lc: int)
    requires a.step > 0 && Remembers(a, ps, lc) && Sane(ps)
    ensures AfterPacket(a, p).1.None? <==> Acceptable(ps, p, lc, a.step)
  {
    if |ps| > 0 {
      LastDecides(ps, p);
    }
  }

  /** The last packet speaks for all before it. */
  lemma LastDecides(ps: seq<Packet>, p: Packet)
    requires Sane(ps) && |ps| > 0 && forall i :: 0 <= i < |ps| ==> Continued(ps[i], Last(ps))
    ensures Continues(ps, p) <==> Continued(Last(ps), p)
  {
    if Continued(Last(ps), p) {
      forall i | 0 <= i < |ps|
        ensures Continued(ps[i], p)
      {
        assert Continued(ps[i], Last(ps));
      }
    }
  }

  /** After any accepted run the next packet is accepted exactly when it is sound, continues the packets
      before it, and, as the first one, does not lie before the warm-up close. */
  lemma {:induction false} AcceptedExactly(lc: int, step: int, es: seq<Event>, p: Packet)
    requires step > 0 && Exec(lc, step, es).Some?
    ensures Sane(PacketsOf(es))
    ensures Exec(lc, step, es + [Seen(p)]).Some? <==> Acceptable(PacketsOf(es), p, lc, step)
  {
    ExecKeeps(lc, step, es);
    RunPackets(lc, step, es);
    RunRemembers(lc, step, es);
    SeenMore(lc, step, es, p);
    AcceptanceIs(Exec(lc, step, es).value.agg, PacketsOf(es), p, lc);
  }

  /** What a refusal says of the packet and those before it. */
  ghost predicate Tells(f: Fault, ps: seq<Packet>, p: Packet, lc: int, step: int)
    requires step > 0
  {
    match f
    case StalePacket => !p.live
    case MissingTime => p.ts.None?
    case OutOfOrder => p.ts.Some? && exists q :: q in ps && q.ts.Some? && q.ts.value > p.ts.value
    case StaleOrFuture => p.ts.Some? && (p.received < p.ts.value - 2 || p.received > p.ts.value + 10)
    case NotFull => !p.full
    case TradeAfterPacket => p.ts.Some? && p.tradeTs.Some? && p.tradeTs.value > p.ts.value + 2
    case UnusablePrice => p.price.None? || p.price.value <= 0.0
    case GenerationChanged => exists q :: q in ps && q.generation != p.generation
    case MissingVolume => p.cumulative.None?
    case VolumeReset =>
      p.cumulative.Some? && exists q :: q in ps && q.cumulative.Some? && q.cumulative.value > p.cumulative.value
    case PredatesWarmup => |ps| == 0 && p.ts.Some? && Bucket(p.ts.value, step) < lc
  }

  lemma RefusalTells(a: Agg, ps: seq<Packet>, p: Packet, lc: int)
    requires a.step > 0 && Remembers(a, ps, lc) && AfterPacket(a, p).1.Some?
    ensures Tells(AfterPacket(a, p).1.value, ps, p, lc, a.step)
  {
    if |ps| > 0 {
      assert Last(ps) in ps && Continued(ps[|ps| - 1], Last(ps));
    }
  }

  /** In every run a refusal is true: what it says of the packet holds. */
  lemma {:induction false} RefusalsAreTrue(lc: int, step: int, es: seq<Event>, p: Packet)
    requires step > 0 && Exec(lc, step, es).Some?
    ensures var f := AfterPacket(Exec(lc, step, es).value.agg, p).1;
            f.Some? ==> Tells(f.value, PacketsOf(es), p, lc, step)
  {
    RunRemembers(lc, step, es);
    var a := Exec(lc, step, es).value.agg;
    ExecKeeps(lc, step, es);
    if AfterPacket(a, p).1.Some? {
      RefusalTells(a, PacketsOf(es), p, lc);
    }
  }

  ghost predicate AllAcceptable(lc: int, step: int, es: seq<Event>)
    requires step > 0
  {
    forall i :: 0 <= i < |es| && es[i].Seen? ==> AcceptableAt(lc, step, es, i)
  }

  ghost predicate AcceptableAt(lc: int, step: int, es: seq<Event>, i: nat)
    requires step > 0 && i < |es| && es[i].Seen?
  {
    var ps := PacketsOf(es[..i]);
    Sane(ps) && Acceptable(ps, es[i].p, lc, step)
  }

  /** A run is accepted exactly when each of its packets is, whatever the clock events between them. */
  lemma {:induction false} RunsAccepted(lc: int, step: int, es: seq<Event>)
    requires step > 0
    ensures Exec(lc, step, es).Some? <==> AllAcceptable(lc, step, es)
  {
    if |es| > 0 {
      var f, e := Front(es), Last(es);
      RunsAccepted(lc, step, f);
      MoreAccepted(lc, step, f, e);
      assert f + [e] == es;
    }
  }

  lemma {:induction false} MoreAccepted(lc: int, step: int, f: seq<Event>, e: Event)
    requires step > 0 && (Exec(lc, step, f).Some? <==> AllAcceptable(lc, step, f))
    ensures Exec(lc, step, f + [e]).Some? <==> AllAcceptable(lc, step, f + [e])
  {
    MoreAcceptable(lc, step, f, e);
    if Exec(lc, step, f).Some? {
      LastAccepted(lc, step, f, e);
    } else {
      assert Front(f + [e]) == f;
    }
  }

  lemma {:induction false} LastAccepted(lc: int, step: int, f: seq<Event>, e: Event)
    requires step > 0 && Exec(lc, step, f).Some?
    ensures Exec(lc, step, f + [e]).Some? <==> (e.Seen? ==> AcceptableAt(lc, step, f + [e], |f|))
  {
    if e.Seen? {
      LastAcceptable(lc, step, f, e);
      AcceptedExactly(lc, step, f, e.p);
    } else {
      TickMore(lc, step, f, e.now);
    }
  }

  lemma {:induction false} LastAcceptable(lc: int, step: int, f: seq<Event>, e: Event)
    requires step > 0 && e.Seen?
    ensures AcceptableAt(lc, step, f + [e], |f|) <==> Sane(PacketsOf(f)) && Acceptable(PacketsOf(f), e.p, lc, step)
  {
    assert (f + [e])[..|f|] == f;
  }

  lemma {:induction false} MoreAcceptable(lc: int, step: int, f: seq<Event>, e: Event)
    requires step > 0
    ensures AllAcceptable(lc, step, f + [e])
            <==> AllAcceptable(lc, step, f) && (e.Seen? ==> AcceptableAt(lc, step, f + [e], |f|))
  {
    var es := f + [e];
    forall i | 0 <= i < |f|
      ensures es[i] == f[i] && es[..i] == f[..i]
    {
    }
    if AllAcceptable(lc, step, es) {
      forall i | 0 <= i < |f| && f[i].Seen?
        ensures AcceptableAt(lc, step, f, i)
      {
        assert AcceptableAt(lc, step, es, i);
      }
    }
    if AllAcceptable(lc, step, f) && (e.Seen? ==> AcceptableAt(lc, step, es, |f|)) {
      forall i | 0 <= i < |es| && es[i].Seen?
        ensures AcceptableAt(lc, step, es, i)
      {
        assert i < |f| ==> AcceptableAt(lc, step, f, i);
      }
    }
  }

  // --------------------------------------------------------- where a packet goes

  /** Everything up to the last finished bar is closed. */
  ghost predicate ClosedTo(lc: int, fin: seq<Bar>, a: Agg) {
    a.lastClose == if |fin| == 0 then lc else Last(fin).start + a.step
  }

  lemma PacketLeavesClosed(a: Agg, p: Packet)
    requires a.step > 0 && AfterPacket(a, p).1.None?
    ensures AfterPacket(a, p).0.lastClose == a.lastClose
  {
  }

  lemma EventCloses(lc: int, r: Run, e: Event)
    requires r.agg.step > 0 && Placed(lc, r.finished, r.agg) && ClosedTo(lc, r.finished, r.agg) && After(r, e).Some?
    ensures ClosedTo(lc, After(r, e).value.finished, After(r, e).value.agg)
  {
    AfterIs(r, e);
    if e.Seen? {
      PacketLeavesClosed(r.agg, e.p);
    } else {
      TickCloses(lc, r.finished, r.agg, e.now);
    }
  }

  lemma TickCloses(lc: int, fin: seq<Bar>, a: Agg, now: int)
    requires a.step > 0 && Placed(lc, fin, a) && ClosedTo(lc, fin, a)
    ensures ClosedTo(lc, fin + Finished(a, now), AfterClock(a, now))
  {
    CloseEnd(lc, fin, a, now);
    assert |Finished(a, now)| == 0 ==> fin + Finished(a, now) == fin;
  }

  lemma {:induction false} RunCloses(lc: int, step: int, es: seq<Event>)
    requires step > 0 && Exec(lc, step, es).Some?
    ensures ClosedTo(lc, Exec(lc, step, es).value.finished, Exec(lc, step, es).value.agg)
  {
    if |es| > 0 {
      RunCloses(lc, step, Front(es));
      RunPlaced(lc, step, Front(es));
      EventCloses(lc, Exec(lc, step, Front(es)).value, Last(es));
    }
  }

  /** A bar of bucket `b` is open: among `bs`, of which the first `n` are finished. */
  ghost predicate HasOpen(bs: seq<Bar>, n: nat, b: int) {
    exists i :: n <= i < |bs| && bs[i].start == b
  }

  ghost predicate AfterAll(bs: seq<Bar>, b: int) {
    forall i :: 0 <= i < |bs| ==> bs[i].start < b
  }

  /** A trade of bucket `b` finds an open bar, or its bar is the next one. */
  ghost predicate OnTime(bs: seq<Bar>, n: nat, b: int) {
    HasOpen(bs, n, b) || AfterAll(bs, b)
  }

  lemma ClosedIsLate(lc: int, fin: seq<Bar>, a: Agg, b: int)
    requires a.step > 0 && Placed(lc, fin, a) && ClosedTo(lc, fin, a) && |Whole(fin, a)| > 0 && Aligned(b, a.step)
    requires b + a.step <= a.lastClose
    ensures !OnTime(Whole(fin, a), |fin|, b)
  {
    var all := Whole(fin, a);
    forall i | |fin| <= i < |all|
      ensures all[i].start != b
    {
      assert Standing(lc, |fin|, a, all, i);
    }
    assert Standing(lc, |fin|, a, all, 0);
    if |fin| > 0 {
      assert all[|fin| - 1] == Last(fin);
    }
  }

  lemma OpenIsOnTime(lc: int, fin: seq<Bar>, a: Agg, b: int)
    requires a.step > 0 && Placed(lc, fin, a) && |Whole(fin, a)| > 0 && Aligned(b, a.step)
    requires a.lastClose < b + a.step
    ensures !PlaceOf(a, b).Late? <==> OnTime(Whole(fin, a), |fin|, b)
  {
    var all := Whole(fin, a);
    var place := PlaceOf(a, b);
    match place
    case Closing(i) => assert all[|fin| + i].start == b;
    case Here => assert all[|all| - 1].start == b;
    case Next => NextIsLatest(lc, fin, a, b);
    case Late =>
      assert a.current.Some? && all[|all| - 1] == a.current.value && b < a.current.value.start;
      forall i | |fin| <= i < |all|
        ensures all[i].start != b
      {
        if i < |all| - 1 {
          assert all[i] == a.closing[i - |fin|];
        }
      }
  }

  lemma PlaceExactly(lc: int, fin: seq<Bar>, a: Agg, b: int)
    requires a.step > 0 && Placed(lc, fin, a) && ClosedTo(lc, fin, a) && |Whole(fin, a)| > 0 && Aligned(b, a.step)
    ensures !PlaceOf(a, b).Late? <==> OnTime(Whole(fin, a), |fin|, b)
  {
    if b + a.step <= a.lastClose {
      ClosedIsLate(lc, fin, a, b);
    } else {
      OpenIsOnTime(lc, fin, a, b);
    }
  }

  /** Only one bar differs, or is new: that of bucket `b`, and it shows the open interest `oi`. */
  ghost predicate Touches(bs: seq<Bar>, cs: seq<Bar>, b: int, oi: nat) {
    && |bs| <= |cs| <= |bs| + 1
    && exists i :: 0 <= i < |cs| && cs[i].start == b && cs[i].oi == oi && forall j :: 0 <= j < |bs| && j != i ==>
       cs[j] == bs[j]
  }

  lemma BookTouches(fin: seq<Bar>, a: Agg, t: Trade, oi: nat)
    requires a.step > 0
    ensures var b, place := Bucket(t.ts, a.step), PlaceOf(a, Bucket(t.ts, a.step));
            var c := Book(a, t, oi);
            if place.Late? then
              Whole(fin, c) == Whole(fin, a) && c.late == a.late + 1 && c.carry == a.carry + t.volume
                  && BookedBy(a, t) == []
            else
              && Touches(Whole(fin, a), Whole(fin, c), b, oi) && c.late == a.late && |BookedBy(a, t)| == 1
              && BookedBy(a, t)[0].ts == t.ts
  {
    BookEffect(fin, a, t, oi);
    var e, all := EffectOf(fin, a, t, oi), Whole(fin, a);
    match e
    case Unchanged =>
    case Appended(bar) => assert (all + [bar])[|all|] == bar;
    case Replaced(i, bar) => assert all[i := bar][i] == bar;
  }

  /** A packet without a trade shows its open interest on the newest open bar and changes nothing else. */
  lemma RefreshTouches(fin: seq<Bar>, a: Agg, oi: nat)
    ensures var c := Refreshed(a, oi);
            && c.late == a.late && c.carry == a.carry && c.lastClose == a.lastClose
            && (a.current.None? ==> Whole(fin, c) == Whole(fin, a))
            && (a.current.Some? ==>
                  Whole(fin, c) == Whole(fin, a)[|Whole(fin, a)| - 1 := Last(Whole(fin, a)).(oi := oi)])
  {
  }

  /** When a packet's trade happened; the packet's time if the exchange left it out. */
  function StampOf(p: Packet): int
    requires p.ts.Some?
  {
    if p.tradeTs.Some? then p.tradeTs.value else p.ts.value
  }

  /** A packet's trade either touches the bar of its bucket, or is late: then no bar changes and its volume is
      carried. */
  ghost predicate TradeGone(r: Run, r2: Run, p: Packet, volume: int, b: int)
    requires p.ts.Some?
  {
    var ok :=
      if OnTime(Bars(r), |r.finished|, b) then
        && Touches(Bars(r), Bars(r2), b, p.oi) && r2.agg.late == r.agg.late
        && |r2.booked| == |r.booked| + 1 && Last(r2.booked).ts == StampOf(p)
      else
        && Bars(r2) == Bars(r) && r2.agg.late == r.agg.late + 1 && r2.booked == r.booked
        && r2.agg.carry == r.agg.carry + volume;
    ok
  }

  /** A packet without a trade only shows its open interest on the newest open bar. */
  ghost predicate QuoteGone(r: Run, r2: Run, p: Packet) {
    var ok :=
      && r2.agg.late == r.agg.late && r2.booked == r.booked && r2.agg.carry == r.agg.carry
      && (if OpenBars(r.agg) == [] then Bars(r2) == Bars(r)
          else Bars(r2) == Bars(r)[|Bars(r)| - 1 := Last(Bars(r)).(oi := p.oi)]);
    ok
  }

  /** In every run, a later packet that brings a trade touches exactly the bar of its bucket, if that bar is
      open or the trade's bucket lies after all bars; otherwise the trade is counted late. A packet without a
      trade is a refresh. */
  lemma {:induction false} PacketsGo(lc: int, step: int, es: seq<Event>, p: Packet)
    requires step > 0 && Exec(lc, step, es).Some? && Exec(lc, step, es + [Seen(p)]).Some? && |PacketsOf(es)| > 0
    ensures Complete(p) && Sane(PacketsOf(es) + [p]) && Complete(Last(PacketsOf(es)))
    ensures var r, r2, ps := Exec(lc, step, es).value, Exec(lc, step, es + [Seen(p)]).value, PacketsOf(es);
            if IsTrade(ps + [p], |ps|)
            then TradeGone(r, r2, p, p.cumulative.value - Last(ps).cumulative.value, Bucket(StampOf(p), step))
            else QuoteGone(r, r2, p)
  {
    var r, ps := Exec(lc, step, es).value, PacketsOf(es);
    ExecKeeps(lc, step, es);
    RunPackets(lc, step, es);
    RunCloses(lc, step, es);
    SeenMore(lc, step, es, p);
    SoundParts(lc, step, r);
    LaterGoes(lc, step, r, ps, p);
  }

  lemma LaterGoes(lc: int, step: int, r: Run, ps: seq<Packet>, p: Packet)
    requires step > 0 && r.agg.step == step && |ps| > 0 && |Bars(r)| > 0 && After(r, Seen(p)).Some?
    requires (var tape := Tape(r.agg, ps); tape)
    requires (var placed := Placed(lc, r.finished, r.agg); placed) && ClosedTo(lc, r.finished, r.agg)
    ensures Complete(p) && Sane(ps + [p]) && Complete(Last(ps))
    ensures var r2 := After(r, Seen(p)).value;
            if IsTrade(ps + [p], |ps|)
            then TradeGone(r, r2, p, p.cumulative.value - Last(ps).cumulative.value, Bucket(StampOf(p), step))
            else QuoteGone(r, r2, p)
  {
    AfterLater(r, p);
    LaterTape(r.agg, ps, p);
    if IsTrade(ps + [p], |ps|) {
      TradeGoes(lc, r, p, p.cumulative.value - Last(ps).cumulative.value);
    } else {
      QuoteGoes(lc, r, p);
    }
  }

  lemma SoundParts(lc: int, step: int, r: Run)
    requires step > 0 && r in Sound(lc, step) && |r.packets| > 0
    ensures r.agg.step == step && |Bars(r)| > 0 && Tape(r.agg, r.packets) && Placed(lc, r.finished, r.agg)
  {
  }

  lemma LaterTape(a: Agg, ps: seq<Packet>, p: Packet)
    requires a.step > 0 && Tape(a, ps) && |ps| > 0 && AfterPacket(a, p).1.None?
    ensures Complete(p) && Sane(ps + [p]) && Complete(Last(ps)) && a.lastVolume.Some? && a.lastTrade.Some?
    ensures p.cumulative.value - a.lastVolume.value == p.cumulative.value - Last(ps).cumulative.value >= 0
    ensures IsNewTrade(a, p, p.cumulative.value - Last(ps).cumulative.value) <==> IsTrade(ps + [p], |ps|)
  {
    AcceptedIsNoted(a, p);
    TapeGrows(a, ps, p, AfterPacket(a, p).0);
  }

  /** The run after a later packet. */
  lemma AfterLater(r: Run, p: Packet)
    requires r.agg.step > 0 && r.agg.started && r.agg.lastTrade.Some? && r.agg.lastVolume.Some?
             && After(r, Seen(p)).Some?
    ensures Complete(p) && p.cumulative.value >= r.agg.lastVolume.value && AfterPacket(r.agg, p).1.None?
    ensures var delta := p.cumulative.value - r.agg.lastVolume.value;
            var t := Trade(TradeTime(p), p.price.value, delta);
            After(r, Seen(p)).value
            == if IsNewTrade(r.agg, p, delta)
               then Run(Book(Observed(r.agg, p), t, p.oi), r.packets + [p], r.booked + BookedBy(r.agg, t), r.finished,
                   r.out)
               else Run(Refreshed(Observed(r.agg, p), p.oi), r.packets + [p], r.booked, r.finished, r.out)
  {
    LaterPacket(r.agg, p);
    assert r.booked + [] == r.booked;
  }

  lemma QuoteGoes(lc: int, r: Run, p: Packet)
    requires r.agg.step > 0 && Placed(lc, r.finished, r.agg) && Complete(p) && r.agg.lastTrade.Some?
    ensures QuoteGone(r, Run(Refreshed(Observed(r.agg, p), p.oi), r.packets + [p], r.booked, r.finished, r.out), p)
  {
    OpenFacts(lc, r.finished, r.agg);
    RefreshTouches(r.finished, Observed(r.agg, p), p.oi);
    assert Whole(r.finished, Observed(r.agg, p)) == Whole(r.finished, r.agg);
  }

  lemma TradeGoes(lc: int, r: Run, p: Packet, delta: nat)
    requires r.agg.step > 0 && Placed(lc, r.finished, r.agg) && ClosedTo(lc, r.finished, r.agg) && |Bars(r)| > 0
    requires Complete(p) && r.agg.lastTrade.Some?
    ensures var t := Trade(TradeTime(p), p.price.value, delta);
            var c := Book(Observed(r.agg, p), t, p.oi);
            TradeGone(r, Run(c, r.packets + [p], r.booked + BookedBy(r.agg, t), r.finished, r.out), p, delta,
                      Bucket(StampOf(p), r.agg.step))
  {
    var t, o := Trade(TradeTime(p), p.price.value, delta), Observed(r.agg, p);
    BucketAligned(t.ts, r.agg.step);
    PlaceExactly(lc, r.finished, r.agg, Bucket(t.ts, r.agg.step));
    BookTouches(r.finished, o, t, p.oi);
    assert Whole(r.finished, o) == Whole(r.finished, r.agg);
    assert PlaceOf(o, Bucket(t.ts, r.agg.step)) == PlaceOf(r.agg, Bucket(t.ts, r.agg.step));
    assert BookedBy(r.agg, t) == BookedBy(o, t);
    assert r.booked + [] == r.booked;
  }
}
