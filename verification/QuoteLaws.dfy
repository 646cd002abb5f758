/** What a quote does to our trade: a long is judged by the bid alone, a short by the ask alone. */
module QuoteLaws {
  import opened Common
  import opened Wvad
  import opened TradeLaws
  import opened SignalLaws
  import opened Orders
  import opened Plan

  /** A price at which a trade of side `dir` can be closed is at or beyond `level` on the losing side. */
  predicate Behind(dir: int, px: real, level: real) {
    if dir == 1 then px <= level else px >= level
  }

  predicate Ahead(dir: int, px: real, level: real) {
    if dir == 1 then px >= level else px <= level
  }

  /** The trade that a price short of its stop and of TP3 leaves: the targets reached are marked. */
  predicate Marks(t: Trade, u: Trade, px: real) {
    && SameTrade(t, u) && !u.hit3
    && (u.hit1 <==> t.hit1 || Ahead(t.dir, px, t.tp1)) && (u.hit2 <==> t.hit2 || Ahead(t.dir, px, t.tp2))
  }

  /** Only targets not hit before are booked, each at its own price. */
  predicate BooksTargets(t: Trade, evs: seq<Event>) {
    forall j :: 0 <= j < |evs| && evs[j].Partial? ==> BooksTarget(t, evs[j])
  }

  predicate BooksTarget(t: Trade, e: Event) {
    && e.Partial? && e.dir == t.dir && (e.level == 1 || e.level == 2)
    && (e.level == 1 ==> !t.hit1 && e.price == t.tp1) && (e.level == 2 ==> !t.hit2 && e.price == t.tp2)
  }

  lemma HitBooksTarget(t: Trade, level: nat, p: Params)
    requires t.risk > 0.0 && 1 <= level <= 3
    ensures var (u, evs) := Hit(t, level, p);
            && SameTrade(t, u) && OnlyPartials(evs) && BooksTargets(t, evs)
            && (u.hit1 <==> t.hit1 || level == 1) && (u.hit2 <==> t.hit2 || level == 2)
               && (u.hit3 <==> t.hit3 || level == 3)
  {
  }

  lemma LaterBooks(t: Trade, u: Trade, a: seq<Event>, b: seq<Event>)
    requires SameTrade(t, u) && (t.hit1 ==> u.hit1) && (t.hit2 ==> u.hit2)
    requires OnlyPartials(a) && OnlyPartials(b) && BooksTargets(t, a) && BooksTargets(u, b)
    ensures OnlyPartials(a + b) && BooksTargets(t, a + b)
  {
    forall j | 0 <= j < |a + b| && (a + b)[j].Partial?
      ensures BooksTarget(t, (a + b)[j])
    {
      if j < |a| {
        assert BooksTarget(t, a[j]);
      } else {
        assert BooksTarget(u, b[j - |a|]);
      }
    }
  }

  /** Hits of a range mark its levels and book their targets. */
  lemma {:induction false} RangeMarks(t: Trade, from: nat, upto: nat, p: Params)
    requires t.risk > 0.0 && 1 <= from && upto <= 3
    ensures var (u, evs) := HitRange(t, from, upto, p);
            && SameTrade(t, u) && OnlyPartials(evs) && BooksTargets(t, evs)
            && (u.hit1 <==> t.hit1 || from <= 1 <= upto) && (u.hit2 <==> t.hit2 || from <= 2 <= upto)
            && (u.hit3 <==> t.hit3 || from <= 3 <= upto)
    decreases 4 - from
  {
    if from <= upto {
      var (t1, e1) := Hit(t, from, p);
      HitBooksTarget(t, from, p);
      RangeMarks(t1, from + 1, upto, p);
      var (u, e2) := HitRange(t1, from + 1, upto, p);
      SameTwice(t, t1, u);
      LaterBooks(t, t1, e1, e2);
    }
  }

  /** The decision on one price: at the stop the trade is closed there; else at TP3 it is complete; else the
      targets reached are marked. */
  predicate Decides(t: Trade, px: real, u: Option<Trade>, evs: seq<Event>) {
    if Behind(t.dir, px, t.stop) then
      && u.None? && |evs| == 1 && IsExit(evs[0], t.dir, px, if t.stop == t.initialStop then Sl else StepStop)
      && evs[0].fraction == t.remaining
    else if Ahead(t.dir, px, t.tp3) then
      u.None? && |evs| > 0 && IsExit(Last(evs), t.dir, t.tp3, Tp3) && OnlyPartials(Front(evs)) && BooksTargets(t, evs)
    else u.Some? && Marks(t, u.value, px) && OnlyPartials(evs) && BooksTargets(t, evs)
  }

  lemma TickDecides(t: Trade, p: Params, px: real)
    requires ValidParams(p) && Riding(t, p)
    ensures var (u, evs) := Tick(Some(t), p, px); Decides(t, px, u, evs)
  {
    LevelsAscend(t, p);
    if !Behind(t.dir, px, t.stop) {
      TickMarks(t, p, px);
    }
  }

  lemma TickMarks(t: Trade, p: Params, px: real)
    requires ValidParams(p) && Riding(t, p) && !Behind(t.dir, px, t.stop)
    ensures var (u, evs) := Tick(Some(t), p, px); Decides(t, px, u, evs)
  {
    LevelsAscend(t, p);
    var level := TickLevel(t, px);
    assert level == 3 <==> Ahead(t.dir, px, t.tp3);
    if level == 0 {
      assert Tick(Some(t), p, px) == (Some(t), []);
    } else {
      RangeMarks(t, 1, level, p);
      var (u, evs) := HitRange(t, 1, level, p);
      if level == 3 {
        var e := Finish(u, u.tp3, Tp3);
        assert Tick(Some(t), p, px) == (None, evs + [e]);
        LastIsExit(t, evs, e);
      } else {
        assert Tick(Some(t), p, px) == (Some(u), evs);
      }
    }
  }

  lemma LastIsExit(t: Trade, evs: seq<Event>, e: Event)
    requires OnlyPartials(evs) && BooksTargets(t, evs) && e.Exit?
    ensures Last(evs + [e]) == e && Front(evs + [e]) == evs && BooksTargets(t, evs + [e])
  {
    forall j | 0 <= j < |evs + [e]| && (evs + [e])[j].Partial?
      ensures BooksTarget(t, (evs + [e])[j])
    {
      assert j < |evs| && BooksTarget(t, evs[j]);
    }
  }

  /** A quote in any run. A trade that is not ours is left alone. Our long is decided on the bid: at or below
      the stop it is closed at the bid; else at TP3 or above it is complete; else the targets at or below the
      bid are marked. Our short is decided on the ask in the same way, mirrored. The other side of the quote
      changes nothing. */
  lemma {:induction false} QuotesDecide(c: Slot, p: Params, acts: seq<Act>, bid: real, ask: real, other: real)
    requires ValidParams(p) && Matches(c, p)
    ensures var x := PlanRun(c, p, acts);
            var (u, evs) := QuoteOutcome(x, p, bid, ask);
            && PlanRun(c, p, acts + [Quote(bid, ask)]).eng.trade == u
            && (!x.m.ours ==> u == x.eng.trade && evs == [])
            && (x.m.ours ==> x.eng.trade.Some?)
            && (x.m.ours && x.eng.trade.value.dir == 1 ==>
                  && Decides(x.eng.trade.value, bid, u, evs)
                  && QuoteOutcome(x, p, bid, other) == (u, evs))
            && (x.m.ours && x.eng.trade.value.dir == -1 ==>
                  && Decides(x.eng.trade.value, ask, u, evs)
                  && QuoteOutcome(x, p, other, ask) == (u, evs))
            && (x.m.ours ==> x.eng.trade.value.dir in {1, -1})
  {
    var x := PlanRun(c, p, acts);
    assert Front(acts + [Quote(bid, ask)]) == acts;
    if x.m.ours {
      var t := x.eng.trade.value;
      TickDecides(t, p, if t.dir == 1 then bid else ask);
    }
  }
}
