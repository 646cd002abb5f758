/** When a live bar may open a trade, and what the daily square-off leaves. */
module GateLaws {
  import opened Common
  import opened Wvad
  import opened TradeLaws
  import opened SignalLaws
  import opened Orders
  import opened Plan
  import opened SessionTimes

  lemma {:induction false} PlanMore(c: Slot, p: Params, acts: seq<Act>, a: Act)
    requires ValidParams(p) && Matches(c, p)
    ensures PlanRun(c, p, acts + [a]) == Step(PlanRun(c, p, acts), c, p, a)
  {
    assert Front(acts + [a]) == acts;
  }

  // -------------------------------------------------------------------- the gate

  /** A live bar that closes at `closeNs` and is handled at `now` may open a trade: it closes between 09:00
      IST and the last entry, outside every blackout, it is at most 90 s late, the day is not squared off,
      and the run is neither halted nor stopping. */
  predicate MayEnter(x: Planned, r: Rules, closeNs: int, now: int, stopping: bool) {
    var ist := closeNs / 1_000_000_000 + 5 * 3600 + 1800;
    && 9 * 3600 <= ist % (24 * 3600) < r.entriesUntil
    && (forall w :: w in r.blackouts ==> ist % (24 * 3600) < w.0 || ist % (24 * 3600) >= w.1)
    && now <= closeNs + 90_000_000_000
    && x.squared != Some(ist / (24 * 3600)) && !x.m.halted && !stopping
  }

  lemma GateIs(x: Planned, r: Rules, closeNs: int, now: int, stopping: bool)
    ensures var k := ClockAt(r, closeNs, now, stopping);
            MayEnter(x, r, closeNs, now, stopping)
            <==> k.entryTime && x.squared != Some(k.day) && !k.late && !x.m.halted && !k.stopping
  {
  }

  /** The engine of a live bar: the first one drops a trade of the warm-up. */
  function EngineOf(x: Planned): State {
    if x.live then x.eng else State(x.eng.barIndex, None)
  }

  /** A bar's engine step and target, without the record types around them. */
  lemma {:induction false} BarPlannedIs(
      x: Planned, c: Slot, p: Params, b: Bar, s: Signals, r: Rules, closeNs: int, now: int, stopping: bool)
    requires ValidParams(p) && Matches(c, p) && Together(x, c, p)
    ensures var y := BarPlanned(x, c, p, b, s, ClockAt(r, closeNs, now, stopping));
            && y.eng == OnBar(EngineOf(x), p, b, s, MayEnter(x, r, closeNs, now, stopping)).0
            && y.squared == x.squared && y.live
            && exists ok :: y.m == AppliedAll(x.m, c,
               OnBar(EngineOf(x), p, b, s, MayEnter(x, r, closeNs, now, stopping)).1, ok)
                            && (MayEnter(x, r, closeNs, now, stopping) ==> ok)
  {
    GateIs(x, r, closeNs, now, stopping);
  }

  /** A bar that may not enter leaves at most the trade there was. */
  lemma ClosedGate(st: State, p: Params, b: Bar, s: Signals)
    requires ValidParams(p) && TradeLaws.Inv(st, p)
    ensures var (st2, evs) := OnBar(st, p, b, s, false);
            && (st2.trade.Some? ==> st.trade.Some? && st2.trade.value.entryBar == st.trade.value.entryBar
                                    && st2.trade.value.dir == st.trade.value.dir)
            && forall j :: 0 <= j < |evs| ==> !evs[j].Entry?
  {
    if st.trade.None? {
      FlatBar(st, p, b, s, false);
    } else {
      var t := st.trade.value;
      ManageNeverEnters(t, p, b, 0);
      if !AtStop(t, b) && !SignalLaws.Through(t, p, b, t.tp3) {
        BarReversesOrRides(st, p, b, s, false);
      } else {
        ClosingBar(st, p, b, s);
      }
    }
  }

  lemma ClosingBar(st: State, p: Params, b: Bar, s: Signals)
    requires ValidParams(p) && TradeLaws.Inv(st, p) && st.trade.Some?
    requires AtStop(st.trade.value, b) || SignalLaws.Through(st.trade.value, p, b, st.trade.value.tp3)
    ensures OnBar(st, p, b, s, false).0.trade.None?
  {
    ThroughIsTouch(st.trade.value, p, b, st.trade.value.tp3);
  }

  lemma {:induction false} NoEntryNotOurs(m: Aim, c: Slot, es: seq<Event>, ok: bool)
    requires forall j :: 0 <= j < |es| ==> !es[j].Entry?
    ensures AppliedAll(m, c, es, ok).ours ==> m.ours
    decreases |es|
  {
    if |es| > 0 {
      assert forall j :: 0 <= j < |es[1..]| ==> es[1..][j] == es[j + 1];
      NoEntryNotOurs(Applied(m, c, es[0], ok), c, es[1..], ok);
    }
  }

  /** In any run, a live bar that may not enter opens nothing: what is open after it was open before it, and
      is ours only if it was. No bar trades what the warm-up opened. */
  lemma {:induction false} ClosedGateOpensNothing(
    c: Slot, p: Params, acts: seq<Act>, b: Bar, s: Signals, r: Rules, closeNs: int, now: int, stopping: bool)
    requires ValidParams(p) && Matches(c, p) && !MayEnter(PlanRun(c, p, acts), r, closeNs, now, stopping)
    ensures var x, y := PlanRun(c, p, acts), PlanRun(c, p, acts + [LiveBar(b, s, ClockAt(r, closeNs, now, stopping))]);
            && (y.eng.trade.Some? ==>
                  x.live && x.eng.trade.Some? && y.eng.trade.value.entryBar == x.eng.trade.value.entryBar)
            && (y.m.ours ==> x.m.ours)
  {
    var x, k := PlanRun(c, p, acts), ClockAt(r, closeNs, now, stopping);
    PlanMore(c, p, acts, LiveBar(b, s, k));
    BarPlannedIs(x, c, p, b, s, r, closeNs, now, stopping);
    ClosedGate(EngineOf(x), p, b, s);
    var evs := OnBar(EngineOf(x), p, b, s, false).1;
    var y := BarPlanned(x, c, p, b, s, k);
    var ok :| y.m == AppliedAll(x.m, c, evs, ok);
    NoEntryNotOurs(x.m, c, evs, ok);
    SquareOffOurs(y, c, b, k);
  }

  lemma SquareOffOurs(y: Planned, c: Slot, b: Bar, k: Clock)
    requires y.eng.trade.Some? ==> y.eng.trade.value.risk > 0.0
    ensures var z := SquaredOff(y, c, b, k); (z.m.ours ==> y.m.ours) && (z.eng.trade.Some? ==> z.eng == y.eng)
  {
    var evs := ForceClose(y.eng.trade, b.close, SquareOff);
    NoEntryNotOurs(y.m, c, evs, false);
  }

  /** In any run, a live bar that may enter, from flat and before the square-off, opens a trade exactly on a
      crossover that is accepted, to its side, and the target becomes all lots on that side. */
  lemma {:induction false} OpenGateTrades(
    c: Slot, p: Params, acts: seq<Act>, b: Bar, s: Signals, r: Rules, closeNs: int, now: int, stopping: bool, dir: int)
    requires ValidParams(p) && Matches(c, p) && MayEnter(PlanRun(c, p, acts), r, closeNs, now, stopping)
    requires EngineOf(PlanRun(c, p, acts)).trade.None? && !SquareOffDue(r, closeNs / SECOND)
    requires Accepted(p, PlanRun(c, p, acts).eng.barIndex, b, s, true, dir)
    ensures var y := PlanRun(c, p, acts + [LiveBar(b, s, ClockAt(r, closeNs, now, stopping))]);
            y.eng.trade.Some? && y.eng.trade.value.dir == dir && y.m.ours && y.m.target == dir * c.lots
  {
    var x, k := PlanRun(c, p, acts), ClockAt(r, closeNs, now, stopping);
    PlanMore(c, p, acts, LiveBar(b, s, k));
    BarPlannedIs(x, c, p, b, s, r, closeNs, now, stopping);
    FlatBar(EngineOf(x), p, b, s, true);
    var evs := OnBar(EngineOf(x), p, b, s, true).1;
    EntryApplies(x.m, c, evs);
  }

  lemma {:induction false} EntryApplies(m: Aim, c: Slot, evs: seq<Event>)
    requires |evs| == 1 && evs[0].Entry?
    ensures AppliedAll(m, c, evs, true) == m.(target := evs[0].dir * c.lots, ours := true)
  {
    assert AppliedAll(Applied(m, c, evs[0], true), c, evs[1..], true) == Applied(m, c, evs[0], true);
  }

  // ----------------------------------------------------------------- the square-off

  /** Nothing is open and nothing is wanted on day `day`, which is squared off. */
  predicate DayOver(x: Planned, day: int) {
    x.live && x.squared == Some(day) && x.eng.trade.None? && x.m.target == 0 && !x.m.ours
  }

  /** In any run, the first bar of a day that closes at or after the square-off time ends the day. */
  lemma {:induction false} SquareOffEndsTheDay(
    c: Slot, p: Params, acts: seq<Act>, b: Bar, s: Signals, r: Rules, closeNs: int, now: int, stopping: bool)
    requires ValidParams(p) && Matches(c, p)
    ensures var ist := closeNs / 1_000_000_000 + 5 * 3600 + 1800;
            var x, y := PlanRun(c, p, acts), PlanRun(c, p, acts + [LiveBar(b, s, ClockAt(r, closeNs, now, stopping))]);
            if ist % (24 * 3600) >= r.squareOff && x.squared != Some(ist / (24 * 3600))
                then DayOver(y, ist / (24 * 3600))
            else y.squared == x.squared
  {
    var x, k := PlanRun(c, p, acts), ClockAt(r, closeNs, now, stopping);
    PlanMore(c, p, acts, LiveBar(b, s, k));
    BarTogether(x, c, p, b, s, k);
    var y := BarPlanned(x, c, p, b, s, k);
    if k.squareOff && x.squared != Some(k.day) {
      if y.eng.trade.Some? {
        CloseAgrees(y.m, c, y.eng.trade.value, b.close, SquareOff);
      }
    }
  }

  /** Bars of day `day` only. */
  predicate WithinDay(acts: seq<Act>, day: int) {
    forall i :: 0 <= i < |acts| && acts[i].LiveBar? ==> acts[i].k.day == day
  }

  /** Once a day is over it stays over: whatever its later bars, quotes, halts and abandoned trades, nothing
      is opened or wanted until a bar of another day. */
  lemma {:induction false} DayStaysOver(c: Slot, p: Params, acts: seq<Act>, rest: seq<Act>, day: int)
    requires ValidParams(p) && Matches(c, p) && DayOver(PlanRun(c, p, acts), day) && WithinDay(rest, day)
    ensures DayOver(PlanRun(c, p, acts + rest), day)
  {
    if |rest| == 0 {
      assert acts + rest == acts;
    } else {
      var f, a := Front(rest), Last(rest);
      assert forall i :: 0 <= i < |f| ==> f[i] == rest[i];
      DayStaysOver(c, p, acts, f, day);
      assert acts + rest == (acts + f) + [a];
      PlanMore(c, p, acts + f, a);
      StepStaysOver(PlanRun(c, p, acts + f), c, p, a, day);
    }
  }

  lemma StepStaysOver(x: Planned, c: Slot, p: Params, a: Act, day: int)
    requires ValidParams(p) && Matches(c, p) && Together(x, c, p) && DayOver(x, day)
    requires a.LiveBar? ==> a.k.day == day
    ensures DayOver(Step(x, c, p, a), day)
  {
    if a.LiveBar? {
      FlatBar(x.eng, p, a.b, a.s, false);
    }
  }
}
