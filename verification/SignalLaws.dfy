/** What a bar does to a trade, by its prices and its crossover: when a trade opens, on which side and at
    which levels; when the open one is stopped, hits its targets or is reversed. */
module SignalLaws {
  import opened Common
  import opened Wvad
  import opened TradeLaws

  // -------------------------------------------------------------- accepted crossovers

  /** A crossover to side `dir` that may be traded at bar `idx`. A bar that crosses both ways counts up. */
  predicate Accepted(p: Params, idx: nat, b: Bar, s: Signals, allowed: bool, dir: int) {
    && (dir == 1 || dir == -1)
    && (dir == 1 ==> s.crossUp) && (dir == -1 ==> s.crossDown && !s.crossUp)
    && allowed && idx >= p.warmupBars && s.hasSignal
    && s.atr.Some? && s.atr.value > 0.0
    && (p.useAdx ==> s.adx.Some? && s.adx.value >= p.adxThreshold)
    && (p.useHtf ==> s.htf == Some(dir))
    && s.atr.value * p.slMult >= p.minRiskTicks as real * p.tick - p.tick * 0.000001
    && b.close > s.atr.value * p.slMult * RMax(p.tp3R, 1.0)
  }

  lemma SignalIsAccepted(p: Params, idx: nat, b: Bar, s: Signals, allowed: bool)
    ensures SignalDir(p, idx, b, s, allowed) == 1 <==> Accepted(p, idx, b, s, allowed, 1)
    ensures SignalDir(p, idx, b, s, allowed) == -1 <==> Accepted(p, idx, b, s, allowed, -1)
    ensures SignalDir(p, idx, b, s, allowed) in {0, 1, -1}
  {
    var risk := s.atr.GetOr(0.0) * p.slMult;
    assert Dist(risk, RMax(p.tp3R, 1.0)) == risk * RMax(p.tp3R, 1.0);
  }

  /** The entry at the close of `b`: the stop one risk behind it, the targets their multiples ahead. */
  predicate EntersAt(e: Event, p: Params, b: Bar, risk: real, dir: int) {
    && e.Entry? && e.dir == dir && e.price == b.close
    && (dir == 1 ==>
          && e.stop == b.close - risk
          && e.tp1 == b.close + risk * p.tp1R && e.tp2 == b.close + risk * p.tp2R && e.tp3 == b.close + risk * p.tp3R)
    && (dir == -1 ==>
          && e.stop == b.close + risk
          && e.tp1 == b.close - risk * p.tp1R && e.tp2 == b.close - risk * p.tp2R && e.tp3 == b.close - risk * p.tp3R)
  }

  /** The risk is the stop multiple of the ATR. */
  predicate Enters(e: Event, p: Params, b: Bar, s: Signals, dir: int) {
    var ok := s.atr.Some? && EntersAt(e, p, b, s.atr.value * p.slMult, dir);
    ok
  }

  /** The new trade holds all of what its entry says. */
  predicate Opens(t: Trade, e: Event, idx: nat) {
    && e.Entry? && t.dir == e.dir && t.entryBar == idx && t.entry == e.price
    && t.initialStop == t.stop == e.stop && (t.tp1, t.tp2, t.tp3) == (e.tp1, e.tp2, e.tp3)
    && !t.hit1 && !t.hit2 && !t.hit3 && !t.ambiguous && t.remaining == 1.0 && t.grossR == 0.0
  }

  lemma OpenedEnters(p: Params, idx: nat, b: Bar, s: Signals, allowed: bool, dir: int)
    requires Accepted(p, idx, b, s, allowed, dir)
    ensures var t := Opened(p, idx, b, s, dir);
            Enters(EntryOf(t), p, b, s, dir) && Opens(t, EntryOf(t), idx)
  {
    var risk := s.atr.value * p.slMult;
    assert Dist(risk, p.tp1R) == risk * p.tp1R && Dist(risk, p.tp2R) == risk * p.tp2R
           && Dist(risk, p.tp3R) == risk * p.tp3R;
  }

  /** A long's stop lies below its entry and its targets above, nearest first; a short's the other way
      round. */
  lemma EntrySides(e: Event, p: Params, b: Bar, risk: real, dir: int)
    requires ValidParams(p) && risk > 0.0 && (dir == 1 || dir == -1) && EntersAt(e, p, b, risk, dir)
    ensures dir == 1 ==> e.stop < e.price < e.tp1 < e.tp2 < e.tp3
    ensures dir == -1 ==> e.stop > e.price > e.tp1 > e.tp2 > e.tp3
  {
    DistMono(risk, 0.0, p.tp1R);
    DistMono(risk, p.tp1R, p.tp2R);
    DistMono(risk, p.tp2R, p.tp3R);
    assert Dist(risk, 0.0) == 0.0;
    assert Dist(risk, p.tp1R) == risk * p.tp1R && Dist(risk, p.tp2R) == risk * p.tp2R
           && Dist(risk, p.tp3R) == risk * p.tp3R;
  }

  // -------------------------------------------------------------------- from flat

  /** From flat a bar opens a trade exactly on an accepted crossover, to its side, and does nothing else. */
  lemma FlatBar(st: State, p: Params, b: Bar, s: Signals, allowed: bool)
    requires ValidParams(p) && st.trade.None?
    ensures var (st2, evs) := OnBar(st, p, b, s, allowed);
            && st2.barIndex == st.barIndex + 1
            && (forall dir :: Accepted(p, st.barIndex, b, s, allowed, dir) ==>
                  && |evs| == 1 && Enters(evs[0], p, b, s, dir)
                  && st2.trade.Some? && Opens(st2.trade.value, evs[0], st.barIndex))
            && (!Accepted(p, st.barIndex, b, s, allowed, 1) && !Accepted(p, st.barIndex, b, s, allowed, -1) ==>
                  evs == [] && st2.trade.None?)
  {
    SignalIsAccepted(p, st.barIndex, b, s, allowed);
    forall dir | Accepted(p, st.barIndex, b, s, allowed, dir)
      ensures SignalDir(p, st.barIndex, b, s, allowed) == dir
      ensures Enters(EntryOf(Opened(p, st.barIndex, b, s, dir)), p, b, s, dir)
      ensures Opens(Opened(p, st.barIndex, b, s, dir), EntryOf(Opened(p, st.barIndex, b, s, dir)), st.barIndex)
    {
      OpenedEnters(p, st.barIndex, b, s, allowed, dir);
    }
  }

  // ------------------------------------------------------------- with a trade open

  predicate Exits(evs: seq<Event>, dir: int, price: real, reason: Reason) {
    exists j :: 0 <= j < |evs| && IsExit(evs[j], dir, price, reason)
  }

  predicate IsExit(e: Event, dir: int, price: real, reason: Reason) {
    e.Exit? && e.dir == dir && e.price == price && e.reason == reason
  }

  predicate OnlyPartials(evs: seq<Event>) {
    forall j :: 0 <= j < |evs| ==> evs[j].Partial?
  }

  /** The bar reaches the stop of a trade. */
  predicate AtStop(t: Trade, b: Bar) {
    (t.dir == 1 ==> b.low <= t.stop) && (t.dir == -1 ==> b.high >= t.stop)
  }

  /** The bar trades the required ticks through a target at `price`. */
  predicate Through(t: Trade, p: Params, b: Bar, price: real) {
    && (t.dir == 1 ==> b.high - price >= p.tpThrough as real * p.tick)
    && (t.dir == -1 ==> price - b.low >= p.tpThrough as real * p.tick)
  }

  /** What an open trade is after a bar that neither stops, completes nor reverses it. */
  predicate RidesOn(t: Trade, u: Trade, p: Params, b: Bar) {
    && (u.dir, u.entryBar, u.entry, u.initialStop, u.risk) == (t.dir, t.entryBar, t.entry, t.initialStop, t.risk)
    && (u.tp1, u.tp2, u.tp3) == (t.tp1, t.tp2, t.tp3)
    && (u.hit1 <==> t.hit1 || Through(t, p, b, t.tp1)) && (u.hit2 <==> t.hit2 || Through(t, p, b, t.tp2)) && !u.hit3
    && var next := if u.hit2 then t.tp1 else if u.hit1 then t.entry else t.stop;
       var gain := if t.dir == 1 then next - t.stop else t.stop - next;
       u.stop == if p.stepStop && gain > p.tick * 0.1 then next else t.stop
  }

  /** The exit of a stopped trade tells whether a bar that stopped it also went through a new target. */
  predicate TellsAmbiguity(evs: seq<Event>, t: Trade, p: Params, b: Bar) {
    forall j :: 0 <= j < |evs| && evs[j].Exit? ==>
      (evs[j].ambiguous
       <==> || t.ambiguous || (!t.hit1 && Through(t, p, b, t.tp1)) || (!t.hit2 && Through(t, p, b, t.tp2))
            || (!t.hit3 && Through(t, p, b, t.tp3)))
  }

  /** A bar that reaches the stop closes the trade there, or at the open if that is already beyond it;
      targets of the same bar do not count but make the exit ambiguous. */
  lemma BarStops(st: State, p: Params, b: Bar, s: Signals, allowed: bool)
    requires ValidParams(p) && TradeLaws.Inv(st, p) && st.trade.Some? && AtStop(st.trade.value, b)
    ensures var t := st.trade.value;
            var price := if t.dir == 1 then RMin(b.open, t.stop) else RMax(b.open, t.stop);
            Exits(OnBar(st, p, b, s, allowed).1, t.dir, price, if t.stop == t.initialStop then Sl else StepStop)
    ensures TellsAmbiguity(OnBar(st, p, b, s, allowed).1, st.trade.value, p, b)
  {
    var t := st.trade.value;
    ThroughIsTouch(t, p, b, t.tp1);
    ThroughIsTouch(t, p, b, t.tp2);
    ThroughIsTouch(t, p, b, t.tp3);
    var e := Finish(StoppedOut(t, p, b), StopFill(t, b), StopReason(t));
    assert Stopped(t, b);
    assert OnBar(st, p, b, s, allowed).1[0] == e;
    assert IsExit(e, t.dir, StopFill(t, b), StopReason(t));
  }

  lemma ThroughIsTouch(t: Trade, p: Params, b: Bar, price: real)
    requires t.dir == 1 || t.dir == -1
    ensures Through(t, p, b, price) <==> Touch(t, p, b, price)
  {
  }

  /** The same trade but for its marks and what is booked. */
  predicate SameTrade(t: Trade, u: Trade) {
    u == t.(hit1 := u.hit1, hit2 := u.hit2, hit3 := u.hit3, remaining := u.remaining, grossR := u.grossR)
  }

  lemma HitIfKeeps(touched: bool, t: Trade, level: nat, p: Params)
    requires t.risk > 0.0 && 1 <= level <= 3
    ensures SameTrade(t, HitIf(touched, t, level, p).0)
  {
  }

  lemma SameTwice(t: Trade, u: Trade, v: Trade)
    requires SameTrade(t, u) && SameTrade(u, v)
    ensures SameTrade(t, v)
  {
  }

  /** A sweep changes marks and what is booked, nothing else. */
  lemma SweepKeeps(t: Trade, p: Params, b: Bar)
    requires t.risk > 0.0
    ensures SameTrade(t, Sweep(t, p, b).0)
  {
    var (h1, h2, h3) := (Touched(t, p, b, 1), Touched(t, p, b, 2), Touched(t, p, b, 3));
    var t1 := HitIf(h1, t, 1, p).0;
    var t2 := HitIf(h2, t1, 2, p).0;
    HitIfKeeps(h1, t, 1, p);
    HitIfKeeps(h2, t1, 2, p);
    HitIfKeeps(h3, t2, 3, p);
    SameTwice(t, t1, t2);
    SameTwice(t, t2, HitIf(h3, t2, 3, p).0);
  }

  /** Otherwise a bar through TP3 closes it at TP3. */
  lemma BarCompletes(st: State, p: Params, b: Bar, s: Signals, allowed: bool)
    requires ValidParams(p) && TradeLaws.Inv(st, p) && st.trade.Some?
    requires !AtStop(st.trade.value, b) && Through(st.trade.value, p, b, st.trade.value.tp3)
    ensures Exits(OnBar(st, p, b, s, allowed).1, st.trade.value.dir, st.trade.value.tp3, Tp3)
  {
    var t := st.trade.value;
    ThroughIsTouch(t, p, b, t.tp3);
    SweepKeeps(t, p, b);
    var (u, evs) := Sweep(t, p, b);
    var e := Finish(u, u.tp3, Tp3);
    assert Manage(t, p, b, SignalDir(p, st.barIndex, b, s, allowed)).1 == evs + [e];
    assert OnBar(st, p, b, s, allowed).1[|evs|] == e;
    assert IsExit(e, t.dir, t.tp3, Tp3);
  }

  /** The sweep marks exactly the targets the bar went through. */
  lemma SweepMarks(t: Trade, p: Params, b: Bar)
    requires ValidParams(p) && Riding(t, p) && !Touch(t, p, b, t.tp3)
    ensures var u := Sweep(t, p, b).0;
            && u == t.(hit1 := u.hit1, hit2 := u.hit2, remaining := u.remaining, grossR := u.grossR)
            && (u.hit1 <==> t.hit1 || Touch(t, p, b, t.tp1)) && (u.hit2 <==> t.hit2 || Touch(t, p, b, t.tp2))
  {
  }

  /** The bar's outcome for a trade it neither stops nor completes. */
  lemma ManageRides(t: Trade, p: Params, b: Bar, dir: int)
    requires ValidParams(p) && Riding(t, p) && !AtStop(t, b) && !Through(t, p, b, t.tp3)
    ensures var (u, evs) := Manage(t, p, b, dir);
            if dir == -t.dir then
              u.None? && |evs| > 0 && IsExit(Last(evs), t.dir, b.close, Reversal) && OnlyPartials(Front(evs))
            else OnlyPartials(evs) && u.Some? && RidesOn(t, u.value, p, b)
  {
    ThroughIsTouch(t, p, b, t.tp1);
    ThroughIsTouch(t, p, b, t.tp2);
    ThroughIsTouch(t, p, b, t.tp3);
    SweepMarks(t, p, b);
    SweepPartials(t, p, b);
    ManageIsSweep(t, p, b, dir);
    var (u, evs) := Sweep(t, p, b);
    if dir == -t.dir {
      assert Front(evs + [Finish(u, b.close, Reversal)]) == evs;
    } else {
      StepRides(t, u, p, b);
    }
  }

  lemma SweepPartials(t: Trade, p: Params, b: Bar)
    requires ValidParams(p) && Riding(t, p)
    ensures OnlyPartials(Sweep(t, p, b).1)
  {
    SweepIsRange(t, p, b);
    RangeHasNoEntry(t, 1, Reach(t, p, b), p);
  }

  lemma ManageIsSweep(t: Trade, p: Params, b: Bar, dir: int)
    requires t.risk > 0.0 && !Stopped(t, b) && !Touched(t, p, b, 3)
    ensures var (u, evs) := Sweep(t, p, b);
            Manage(t, p, b, dir) == if dir == -t.dir then (None, evs + [Finish(u, b.close, Reversal)])
                                    else (Some(Stepped(u, p)), evs)
  {
    SweepKeeps(t, p, b);
  }

  lemma StepRides(t: Trade, u: Trade, p: Params, b: Bar)
    requires t.dir == 1 || t.dir == -1
    requires u == t.(hit1 := u.hit1, hit2 := u.hit2, remaining := u.remaining, grossR := u.grossR) && !t.hit3
    requires (u.hit1 <==> t.hit1 || Through(t, p, b, t.tp1)) && (u.hit2 <==> t.hit2 || Through(t, p, b, t.tp2))
    ensures RidesOn(t, Stepped(u, p), p, b)
  {
  }

  /** Otherwise it is reversed at the close exactly on an accepted crossover against it, and the opposite
      trade opens there; or it rides on. */
  lemma BarReversesOrRides(st: State, p: Params, b: Bar, s: Signals, allowed: bool)
    requires ValidParams(p) && TradeLaws.Inv(st, p) && st.trade.Some?
    requires !AtStop(st.trade.value, b) && !Through(st.trade.value, p, b, st.trade.value.tp3)
    ensures var t := st.trade.value;
            var (st2, evs) := OnBar(st, p, b, s, allowed);
            if Accepted(p, st.barIndex, b, s, allowed, -t.dir) then
              && |evs| >= 2 && IsExit(evs[|evs| - 2], t.dir, b.close, Reversal)
              && Enters(Last(evs), p, b, s, -t.dir)
              && st2.trade.Some? && Opens(st2.trade.value, Last(evs), st.barIndex)
            else
              OnlyPartials(evs) && st2.trade.Some? && RidesOn(t, st2.trade.value, p, b)
  {
    if Accepted(p, st.barIndex, b, s, allowed, -st.trade.value.dir) {
      BarReverses(st, p, b, s, allowed);
    } else {
      BarRides(st, p, b, s, allowed);
    }
  }

  lemma BarReverses(st: State, p: Params, b: Bar, s: Signals, allowed: bool)
    requires ValidParams(p) && TradeLaws.Inv(st, p) && st.trade.Some?
    requires !AtStop(st.trade.value, b) && !Through(st.trade.value, p, b, st.trade.value.tp3)
    requires Accepted(p, st.barIndex, b, s, allowed, -st.trade.value.dir)
    ensures var t := st.trade.value;
            var (st2, evs) := OnBar(st, p, b, s, allowed);
            && |evs| >= 2 && IsExit(evs[|evs| - 2], t.dir, b.close, Reversal) && Enters(Last(evs), p, b, s, -t.dir)
            && st2.trade.Some? && Opens(st2.trade.value, Last(evs), st.barIndex)
  {
    var t := st.trade.value;
    SignalIsAccepted(p, st.barIndex, b, s, allowed);
    ManageRides(t, p, b, -t.dir);
    var (u, evs) := Manage(t, p, b, -t.dir);
    BarAfterManage(st, p, b, s, allowed, -t.dir, u, evs);
    OpenedEnters(p, st.barIndex, b, s, allowed, -t.dir);
    EntryComesLast(evs, EntryOf(Opened(p, st.barIndex, b, s, -t.dir)));
  }

  lemma EntryComesLast(evs: seq<Event>, e: Event)
    requires |evs| > 0
    ensures Last(evs + [e]) == e && (evs + [e])[|evs + [e]| - 2] == Last(evs)
  {
  }

  lemma BarRides(st: State, p: Params, b: Bar, s: Signals, allowed: bool)
    requires ValidParams(p) && TradeLaws.Inv(st, p) && st.trade.Some?
    requires !AtStop(st.trade.value, b) && !Through(st.trade.value, p, b, st.trade.value.tp3)
    requires !Accepted(p, st.barIndex, b, s, allowed, -st.trade.value.dir)
    ensures var (st2, evs) := OnBar(st, p, b, s, allowed);
            OnlyPartials(evs) && st2.trade.Some? && RidesOn(st.trade.value, st2.trade.value, p, b)
  {
    var t, dir := st.trade.value, SignalDir(p, st.barIndex, b, s, allowed);
    SignalIsAccepted(p, st.barIndex, b, s, allowed);
    ManageRides(t, p, b, dir);
    var (u, evs) := Manage(t, p, b, dir);
    BarAfterManage(st, p, b, s, allowed, dir, u, evs);
  }

  lemma BarAfterManage(
    st: State, p: Params, b: Bar, s: Signals, allowed: bool, dir: int, u: Option<Trade>, evs: seq<Event>)
    requires st.trade.Some? && st.trade.value.risk > 0.0 && st.trade.value.entryBar < st.barIndex
    requires dir == SignalDir(p, st.barIndex, b, s, allowed) && Manage(st.trade.value, p, b, dir) == (u, evs)
    ensures var o := Opened(p, st.barIndex, b, s, dir);
            OnBar(st, p, b, s, allowed)
            == if dir != 0 && u.None? then (State(st.barIndex + 1, Some(o)), evs + [EntryOf(o)])
               else (State(st.barIndex + 1, u), evs)
  {
  }

  // ------------------------------------------------------------------- over runs

  /** The bars among the first operations. */
  function BarCount(ops: seq<Op>): nat {
    if |ops| == 0 then 0 else BarCount(Front(ops)) + (if Last(ops).Feed? then 1 else 0)
  }

  lemma {:induction false} IndexCountsBars(p: Params, ops: seq<Op>)
    requires ValidParams(p) && ValidOps(ops)
    ensures Run(p, ops).0.barIndex == BarCount(ops)
  {
    if |ops| > 0 {
      IndexCountsBars(p, Front(ops));
    }
  }

  /** The events of operation `n` of a run. */
  ghost function EventsAt(p: Params, ops: seq<Op>, n: nat): seq<Event>
    requires ValidParams(p) && ValidOps(ops) && n < |ops|
  {
    Do(Before(p, ops, n), p, ops[n]).1
  }

  /** Whether bar `n` of a run brings an accepted crossover to side `dir`; the warm-up counts its bars. */
  ghost predicate Crosses(p: Params, ops: seq<Op>, n: nat, dir: int)
    requires n < |ops| && ops[n].Feed?
  {
    Accepted(p, BarCount(ops[..n]), ops[n].b, ops[n].s, ops[n].allowed, dir)
  }

  lemma {:induction false} IndexOf(p: Params, ops: seq<Op>, n: nat)
    requires ValidParams(p) && ValidOps(ops) && n < |ops|
    ensures Before(p, ops, n).barIndex == BarCount(ops[..n])
  {
    assert ValidOps(ops[..n]) by {
      assert forall i :: 0 <= i < n ==> ops[..n][i] == ops[i];
    }
    IndexCountsBars(p, ops[..n]);
  }

  /** In every run an entry is made exactly on an accepted crossover of its bar to its side, from flat or
      after the open trade ended on the same bar: the direction is the crossover's, the stop lies one risk
      behind the close and the targets ahead of it. */
  lemma {:induction false} EntriesFollowCrossovers(p: Params, ops: seq<Op>, n: nat, j: nat)
    requires ValidParams(p) && ValidOps(ops) && n < |ops| && j < |EventsAt(p, ops, n)| && EventsAt(p, ops, n)[j].Entry?
    ensures ops[n].Feed? && j == |EventsAt(p, ops, n)| - 1
    ensures var e, f := EventsAt(p, ops, n)[j], ops[n];
            && Crosses(p, ops, n, e.dir) && Enters(e, p, f.b, f.s, e.dir)
            && (e.dir == 1 <==> f.s.crossUp) && (e.dir == -1 <==> f.s.crossDown && !f.s.crossUp)
            && (e.dir == 1 ==> e.stop < e.price < e.tp1 < e.tp2 < e.tp3)
            && (e.dir == -1 ==> e.stop > e.price > e.tp1 > e.tp2 > e.tp3)
  {
    var st := Before(p, ops, n);
    IndexOf(p, ops, n);
    OnlyBarsEnter(st, p, ops[n], j);
    var f, e := ops[n], EventsAt(p, ops, n)[j];
    EntryIs(e, p, st.barIndex, f.b, f.s, f.allowed);
  }

  lemma EntryIs(e: Event, p: Params, idx: nat, b: Bar, s: Signals, allowed: bool)
    requires ValidParams(p) && e.Entry? && Accepted(p, idx, b, s, allowed, e.dir)
    requires Enters(e, p, b, s, e.dir)
    ensures (e.dir == 1 <==> s.crossUp) && (e.dir == -1 <==> s.crossDown && !s.crossUp)
    ensures e.dir == 1 ==> e.stop < e.price < e.tp1 < e.tp2 < e.tp3
    ensures e.dir == -1 ==> e.stop > e.price > e.tp1 > e.tp2 > e.tp3
  {
    RiskIsPositive(s.atr.value, p.slMult);
    EntrySides(e, p, b, s.atr.value * p.slMult, e.dir);
  }

  lemma RiskIsPositive(atr: real, mult: real)
    requires atr > 0.0 && mult > 0.0
    ensures atr * mult > 0.0
  {
  }

  lemma OnlyBarsEnter(st: State, p: Params, op: Op, j: nat)
    requires ValidParams(p) && TradeLaws.Inv(st, p) && (op.Mark? ==> 1 <= op.level <= 3)
    requires j < |Do(st, p, op).1| && Do(st, p, op).1[j].Entry?
    ensures op.Feed? && j == |Do(st, p, op).1| - 1
    ensures var e := Do(st, p, op).1[j];
            && Accepted(p, st.barIndex, op.b, op.s, op.allowed, e.dir)
            && Enters(e, p, op.b, op.s, e.dir)
  {
    match op
    case Mark(level) =>
      if st.trade.Some? {
        RangeHasNoEntry(st.trade.value, 1, level, p);
      }
    case Force(_, _) =>
    case Feed(b, s, allowed) => FeedEnters(st, p, b, s, allowed, j);
  }

  lemma FeedEnters(st: State, p: Params, b: Bar, s: Signals, allowed: bool, j: nat)
    requires ValidParams(p) && TradeLaws.Inv(st, p)
    requires j < |OnBar(st, p, b, s, allowed).1| && OnBar(st, p, b, s, allowed).1[j].Entry?
    ensures j == |OnBar(st, p, b, s, allowed).1| - 1
    ensures var e := OnBar(st, p, b, s, allowed).1[j];
            && Accepted(p, st.barIndex, b, s, allowed, e.dir)
            && Enters(e, p, b, s, e.dir)
  {
    var dir := SignalDir(p, st.barIndex, b, s, allowed);
    SignalIsAccepted(p, st.barIndex, b, s, allowed);
    if st.trade.Some? {
      ManageNeverEnters(st.trade.value, p, b, dir);
    }
    if dir != 0 {
      OpenedEnters(p, st.barIndex, b, s, allowed, dir);
    }
  }

  lemma ManageNeverEnters(t: Trade, p: Params, b: Bar, dir: int)
    requires ValidParams(p) && Riding(t, p)
    ensures forall i :: 0 <= i < |Manage(t, p, b, dir).1| ==> !Manage(t, p, b, dir).1[i].Entry?
  {
    if !Stopped(t, b) {
      SweepPartials(t, p, b);
    }
  }

  /** In every run a bar decides on the open trade by its prices and its crossover alone: at the stop it is
      stopped out, whatever else the bar reached; else through TP3 it is complete; else an accepted crossover
      against it reverses it at the close; else it rides on. From flat an accepted crossover opens a trade,
      and nothing else happens. */
  lemma {:induction false} BarsDecide(p: Params, ops: seq<Op>, n: nat)
    requires ValidParams(p) && ValidOps(ops) && n < |ops| && ops[n].Feed?
    ensures var st, f, evs := Before(p, ops, n), ops[n], EventsAt(p, ops, n);
            match st.trade
            case None =>
              && ((Crosses(p, ops, n, 1) || Crosses(p, ops, n, -1)) <==> |evs| > 0)
              && (|evs| > 0 ==> |evs| == 1 && evs[0].Entry?)
            case Some(t) =>
              if AtStop(t, f.b) then
                && Exits(evs, t.dir, if t.dir == 1 then RMin(f.b.open, t.stop) else RMax(f.b.open, t.stop),
                         if t.stop == t.initialStop then Sl else StepStop)
                && TellsAmbiguity(evs, t, p, f.b)
              else if Through(t, p, f.b, t.tp3) then Exits(evs, t.dir, t.tp3, Tp3)
              else if Crosses(p, ops, n, -t.dir) then
                |evs| >= 2 && IsExit(evs[|evs| - 2], t.dir, f.b.close, Reversal) && Last(evs).Entry?
                    && Last(evs).dir == -t.dir
              else
                && OnlyPartials(evs)
                && var st2 := Do(st, p, f).0; st2.trade.Some? && RidesOn(t, st2.trade.value, p, f.b)
  {
    var st, f := Before(p, ops, n), ops[n];
    IndexOf(p, ops, n);
    if st.trade.None? {
      FlatBar(st, p, f.b, f.s, f.allowed);
    } else if AtStop(st.trade.value, f.b) {
      BarStops(st, p, f.b, f.s, f.allowed);
    } else if Through(st.trade.value, p, f.b, st.trade.value.tp3) {
      BarCompletes(st, p, f.b, f.s, f.allowed);
    } else {
      BarReversesOrRides(st, p, f.b, f.s, f.allowed);
    }
  }
}
