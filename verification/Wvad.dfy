/** The trade model of Williams Variable A/D Pressure (`crates/wvad/src/engine.rs`): partials, stop,
    targets, reversal and entry. Indicator values are inputs. */
module Wvad {
  import opened Common

  datatype Params = Params(
    slMult: real, tp1R: real, tp2R: real, tp3R: real, f1: real, f2: real, stepStop: bool,
    tick: real, minRiskTicks: nat, tpThrough: nat, warmupBars: nat,
    useAdx: bool, adxThreshold: real, useHtf: bool)

  /** What `Params::validate` guarantees of these fields. */
  ghost predicate ValidParams(p: Params) {
    && p.slMult > 0.0
    && 0.0 < p.tp1R < p.tp2R < p.tp3R
    && p.f1 >= 0.0 && p.f2 >= 0.0 && p.f1 + p.f2 < 1.0
    && p.tick > 0.0 && p.minRiskTicks >= 1 && p.tpThrough <= 100
  }

  datatype Bar = Bar(open: real, high: real, low: real, close: real)

  ghost predicate Ohlc(b: Bar) {
    b.low <= b.open <= b.high && b.low <= b.close <= b.high
  }

  /** The indicator values of one bar: crossover flags, whether the signal line exists, ATR, ADX and
      the higher-timeframe direction. */
  datatype Signals = Signals(
    crossUp: bool, crossDown: bool, hasSignal: bool, atr: Option<real>, adx: Option<real>, htf: Option<int>)

  datatype Reason = Sl | StepStop | Tp3 | Reversal | SquareOff | LiveStart

  datatype Event =
    | Entry(dir: int, price: real, stop: real, tp1: real, tp2: real, tp3: real)
    | Partial(dir: int, level: nat, price: real, fraction: real)
    | Exit(dir: int, price: real, reason: Reason, fraction: real, grossR: real, ambiguous: bool)

  datatype Trade = Trade(
    dir: int, entryBar: nat, entry: real, initialStop: real, stop: real, risk: real,
    tp1: real, tp2: real, tp3: real, hit1: bool, hit2: bool, hit3: bool,
    ambiguous: bool, remaining: real, grossR: real)

  /** `dir * x`: a trade's direction is 1 or -1. */
  function Signed(dir: int, x: real): real {
    if dir == 1 then x else -x
  }

  /** `r` times the risk, in points. */
  function Dist(risk: real, r: real): real {
    risk * r
  }

  /** Profit at `px` in units of the trade's risk. */
  function RMultiple(dir: int, entry: real, risk: real, px: real): real
    requires risk > 0.0
  {
    Signed(dir, px - entry) / risk
  }

  /** R won by closing fraction `f` of the position at `r`. */
  function Won(f: real, r: real): real {
    f * r
  }

  // -------------------------------------------------------------- trade steps

  function Clamped(fraction: real, remaining: real): real {
    RMin(RMax(fraction, 0.0), remaining)
  }

  /** `take`: books `fraction` of the position, at most what is open, at `px`. */
  function Take(t: Trade, px: real, fraction: real): Trade
    requires t.risk > 0.0
  {
    var f := Clamped(fraction, t.remaining);
    t.(grossR := t.grossR + Won(f, RMultiple(t.dir, t.entry, t.risk, px)), remaining := RMax(t.remaining - f, 0.0))
  }

  /** `finish`: closes what is open. */
  function Finish(t: Trade, px: real, reason: Reason): Event
    requires t.risk > 0.0
  {
    Exit(t.dir, px, reason, t.remaining, Take(t, px, t.remaining).grossR, t.ambiguous)
  }

  function LevelPrice(t: Trade, level: nat): real {
    if level == 1 then t.tp1 else if level == 2 then t.tp2 else t.tp3
  }

  function IsHit(t: Trade, level: nat): bool {
    if level == 1 then t.hit1 else if level == 2 then t.hit2 else t.hit3
  }

  function Marked(t: Trade, level: nat): Trade {
    if level == 1 then t.(hit1 := true) else if level == 2 then t.(hit2 := true) else t.(hit3 := true)
  }

  function LevelFraction(p: Params, level: nat): real {
    if level == 1 then p.f1 else if level == 2 then p.f2 else 0.0
  }

  /** `hit`: target `level` touched; TP1 and TP2 close their fraction, TP3 is only marked. */
  function Hit(t: Trade, level: nat, p: Params): (Trade, seq<Event>)
    requires t.risk > 0.0 && 1 <= level <= 3
    ensures Hit(t, level, p).0.risk > 0.0
  {
    if IsHit(t, level) then (t, [])
    else
      var m := Marked(t, level);
      var fraction := LevelFraction(p, level);
      if level == 3 || fraction <= 0.0 then (m, [])
      else
        var f := Clamped(fraction, m.remaining);
        (Take(m, LevelPrice(t, level), fraction),
         if f > 0.0 then [Partial(t.dir, level, LevelPrice(t, level), f)] else [])
  }

  /** Levels `from..=upto` hit in order. */
  function HitRange(t: Trade, from: nat, upto: nat, p: Params): (Trade, seq<Event>)
    requires t.risk > 0.0 && 1 <= from && upto <= 3
    ensures HitRange(t, from, upto, p).0.risk > 0.0
    decreases 4 - from
  {
    if from > upto then (t, [])
    else
      var (t1, e1) := Hit(t, from, p);
      var (t2, e2) := HitRange(t1, from + 1, upto, p);
      (t2, e1 + e2)
  }

  /** `mark_target`: a tick reached `level`; TP3 closes the rest. */
  function MarkTarget(trade: Option<Trade>, level: nat, p: Params): (Option<Trade>, seq<Event>)
    requires 1 <= level <= 3 && (trade.Some? ==> trade.value.risk > 0.0)
  {
    match trade
    case None => (None, [])
    case Some(t) =>
      var (t1, evs) := HitRange(t, 1, level, p);
      if level >= 3 then (None, evs + [Finish(t1, t1.tp3, Tp3)]) else (Some(t1), evs)
  }

  /** `force_close`: closes the open trade, if any. */
  function ForceClose(trade: Option<Trade>, px: real, reason: Reason): seq<Event>
    requires trade.Some? ==> trade.value.risk > 0.0
  {
    if trade.Some? then [Finish(trade.value, px, reason)] else []
  }

  // ---------------------------------------------------------------- one bar

  function Stopped(t: Trade, b: Bar): bool {
    if t.dir == 1 then b.low <= t.stop else b.high >= t.stop
  }

  function Through(p: Params): real {
    p.tpThrough as real * p.tick
  }

  /** The bar trades `tpThrough` ticks through `level`. */
  function Touch(t: Trade, p: Params, b: Bar, level: real): bool {
    if t.dir == 1 then b.high >= level + Through(p) else b.low <= level - Through(p)
  }

  /** Target `level` is new and touched by this bar. */
  function Touched(t: Trade, p: Params, b: Bar, level: nat): bool {
    !IsHit(t, level) && Touch(t, p, b, LevelPrice(t, level))
  }

  /** A gap through the stop fills at the open. */
  function StopFill(t: Trade, b: Bar): real {
    if t.dir == 1 then RMin(b.open, t.stop) else RMax(b.open, t.stop)
  }

  /** The trade a bar stops out; ambiguous when the bar also touched a new target. */
  function StoppedOut(t: Trade, p: Params, b: Bar): Trade {
    t.(ambiguous := t.ambiguous || Touched(t, p, b, 1) || Touched(t, p, b, 2) || Touched(t, p, b, 3))
  }

  function StopReason(t: Trade): Reason {
    if t.stop == t.initialStop then Sl else StepStop
  }

  function HitIf(touched: bool, t: Trade, level: nat, p: Params): (Trade, seq<Event>)
    requires t.risk > 0.0 && 1 <= level <= 3
    ensures HitIf(touched, t, level, p).0.risk > 0.0
  {
    if touched then Hit(t, level, p) else (t, [])
  }

  /** The stop step: TP1 moves it to the entry, TP2 to TP1, for the next bar on. */
  function Stepped(t: Trade, p: Params): Trade {
    var next := if t.hit2 then t.tp1 else if t.hit1 then t.entry else t.stop;
    if p.stepStop && Signed(t.dir, next - t.stop) > p.tick * 0.1 then t.(stop := next) else t
  }

  /** The open trade on a bar after its entry: stop first, then targets, reversal, stop step. */
  function Manage(t: Trade, p: Params, b: Bar, signalDir: int): (Option<Trade>, seq<Event>)
    requires t.risk > 0.0
  {
    var (h1, h2, h3) := (Touched(t, p, b, 1), Touched(t, p, b, 2), Touched(t, p, b, 3));
    if Stopped(t, b) then
      (None, [Finish(StoppedOut(t, p, b), StopFill(t, b), StopReason(t))])
    else
      var (t1, e1) := HitIf(h1, t, 1, p);
      var (t2, e2) := HitIf(h2, t1, 2, p);
      var (t3, e3) := HitIf(h3, t2, 3, p);
      var evs := e1 + e2 + e3;
      if h3 then (None, evs + [Finish(t3, t3.tp3, Tp3)])
      else if signalDir == -t.dir then (None, evs + [Finish(t3, b.close, Reversal)])
      else (Some(Stepped(t3, p)), evs)
  }

  predicate TooTight(p: Params, risk: real) {
    risk < p.minRiskTicks as real * p.tick - p.tick * 0.000001
  }

  /** The accepted crossover of a bar: its direction, 0 for none. */
  function SignalDir(p: Params, idx: nat, b: Bar, s: Signals, allowed: bool): int {
    var atr := s.atr.GetOr(0.0);
    var ready := idx >= p.warmupBars && s.hasSignal && atr > 0.0 && (!p.useAdx || s.adx.Some?)
        && (!p.useHtf || s.htf.Some?);
    var risk := atr * p.slMult;
    if !(s.crossUp || s.crossDown) || idx < p.warmupBars then 0
    else
      var d := if s.crossUp then 1 else -1;
      if !ready || !allowed then 0
      else if p.useAdx && (s.adx.None? || s.adx.value < p.adxThreshold) then 0
      else if p.useHtf && s.htf != Some(d) then 0
      else if TooTight(p, risk) || b.close - Dist(risk, RMax(p.tp3R, 1.0)) <= 0.0 then 0
      else d
  }

  /** The trade opened at the close of a crossover bar. */
  function Opened(p: Params, idx: nat, b: Bar, s: Signals, dir: int): Trade {
    var risk := s.atr.GetOr(0.0) * p.slMult;
    var e := b.close;
    Trade(dir, idx, e, e - Signed(dir, risk), e - Signed(dir, risk), risk,
          e + Signed(dir, Dist(risk, p.tp1R)), e + Signed(dir, Dist(risk, p.tp2R)), e + Signed(dir, Dist(risk, p.tp3R)),
          false, false, false, false, 1.0, 0.0)
  }

  function EntryOf(t: Trade): Event {
    Entry(t.dir, t.entry, t.stop, t.tp1, t.tp2, t.tp3)
  }

  /** The engine's mutable part. */
  datatype State = State(barIndex: nat, trade: Option<Trade>)

  function OnBar(st: State, p: Params, b: Bar, s: Signals, allowed: bool): (State, seq<Event>)
    requires st.trade.Some? ==> st.trade.value.risk > 0.0
  {
    var idx := st.barIndex;
    var dir := SignalDir(p, idx, b, s, allowed);
    var (t, evs) := if st.trade.Some? && idx > st.trade.value.entryBar
                    then Manage(st.trade.value, p, b, dir) else (st.trade, []);
    if dir != 0 && t.None? then
      var entered := Opened(p, idx, b, s, dir);
      (State(idx + 1, Some(entered)), evs + [EntryOf(entered)])
    else (State(idx + 1, t), evs)
  }

  // ------------------------------------------------------------ the mutable engine

  class Engine {
    const p: Params
    var barIndex: nat
    var trade: Option<Trade>

    function View(): State
      reads this
    {
      State(barIndex, trade)
    }

    ghost predicate Valid()
      reads this
    {
      ValidParams(p) && (trade.Some? ==> trade.value.risk > 0.0)
    }

    constructor (p: Params)
      requires ValidParams(p)
      ensures Valid() && this.p == p && View() == State(0, None)
    {
      this.p := p;
      this.barIndex := 0;
      this.trade := None;
    }

    /** Target `level` of the open trade touched. */
    method HitLevel(level: nat) returns (evs: seq<Event>)
      requires Valid() && trade.Some? && 1 <= level <= 3
      modifies this`trade
      ensures Valid() && trade.Some? && (trade.value, evs) == Hit(old(trade.value), level, p)
    {
      var t := trade.value;
      evs := [];
      var price, fraction := 0.0, 0.0;
      if level == 1 && !t.hit1 {
        t := t.(hit1 := true);
        price, fraction := t.tp1, p.f1;
      } else if level == 2 && !t.hit2 {
        t := t.(hit2 := true);
        price, fraction := t.tp2, p.f2;
      } else if level == 3 && !t.hit3 {
        t := t.(hit3 := true);
      }
      if fraction > 0.0 {
        var f := Clamped(fraction, t.remaining);
        t := Take(t, price, fraction);
        if f > 0.0 {
          evs := [Partial(t.dir, level, price, f)];
        }
      }
      trade := Some(t);
    }

    method ForceCloseTrade(px: real, reason: Reason) returns (evs: seq<Event>)
      requires Valid()
      modifies this`trade
      ensures Valid() && trade == None && evs == ForceClose(old(trade), px, reason)
    {
      if trade.None? {
        return [];
      }
      evs := [Finish(trade.value, px, reason)];
      trade := None;
    }

    method Mark(level: nat) returns (out: seq<Event>)
      requires Valid() && 1 <= level <= 3
      modifies this`trade
      ensures Valid() && (trade, out) == MarkTarget(old(trade), level, p)
    {
      out := [];
      if trade.None? {
        return;
      }
      out := MarkLevels(level);
      if level >= 3 {
        var evs := ForceCloseTrade(trade.value.tp3, Tp3);
        out := out + evs;
      }
    }

    method MarkLevels(level: nat) returns (out: seq<Event>)
      requires Valid() && trade.Some? && 1 <= level <= 3
      modifies this`trade
      ensures Valid() && trade.Some? && (trade.value, out) == HitRange(old(trade.value), 1, level, p)
    {
      out := [];
      ghost var all := HitRange(trade.value, 1, level, p);
      var l := 1;
      while l <= level
        invariant 1 <= l <= level + 1
        invariant Valid() && trade.Some?
        invariant all.0 == HitRange(trade.value, l, level, p).0
        invariant all.1 == out + HitRange(trade.value, l, level, p).1
      {
        HitRangeStep(trade.value, l, level, p, out);
        var evs := HitLevel(l);
        out := out + evs;
        l := l + 1;
      }
      assert out + [] == out;
    }

    method Feed(b: Bar, s: Signals, allowed: bool) returns (events: seq<Event>)
      requires Valid()
      modifies this
      ensures Valid() && (View(), events) == OnBar(old(View()), p, b, s, allowed)
    {
      var idx := barIndex;
      barIndex := barIndex + 1;
      var dir := SignalDir(p, idx, b, s, allowed);
      events := [];
      if trade.Some? && idx > trade.value.entryBar {
        events := ManageOpen(b, dir);
      }
      if dir != 0 && trade.None? {
        var t := Opened(p, idx, b, s, dir);
        SignalHasRisk(p, idx, b, s, allowed);
        trade := Some(t);
        events := events + [EntryOf(t)];
      }
    }

    method ManageOpen(b: Bar, dir: int) returns (events: seq<Event>)
      requires Valid() && trade.Some?
      modifies this`trade
      ensures Valid() && (trade, events) == Manage(old(trade.value), p, b, dir)
    {
      var t := trade.value;
      var touched := [Touched(t, p, b, 1), Touched(t, p, b, 2), Touched(t, p, b, 3)];
      events := [];
      if Stopped(t, b) {
        trade := Some(t.(ambiguous := t.ambiguous || touched[0] || touched[1] || touched[2]));
        events := ForceCloseTrade(StopFill(t, b), StopReason(t));
        return;
      }
      events := SweepLevels(touched);
      SweptAll(t, touched, p);
      if touched[2] {
        var evs := ForceCloseTrade(trade.value.tp3, Tp3);
        events := events + evs;
      } else if dir == -t.dir {
        var evs := ForceCloseTrade(b.close, Reversal);
        events := events + evs;
      } else {
        trade := Some(Stepped(trade.value, p));
      }
    }

    /** The touched targets, nearest first. */
    method SweepLevels(touched: seq<bool>) returns (events: seq<Event>)
      requires Valid() && trade.Some? && |touched| == 3
      modifies this`trade
      ensures Valid() && trade.Some? && (trade.value, events) == Swept(old(trade.value), touched, 3, p)
    {
      events := [];
      ghost var t := trade.value;
      var level := 1;
      while level <= 3
        invariant 1 <= level <= 4 && Valid() && trade.Some?
        invariant (trade.value, events) == Swept(t, touched, level - 1, p)
      {
        if touched[level - 1] {
          var evs := HitLevel(level);
          events := events + evs;
        } else {
          assert events + [] == events;
        }
        level := level + 1;
      }
    }
  }

  /** The first `n` levels gone through, hitting the touched ones. */
  ghost function Swept(t: Trade, touched: seq<bool>, n: nat, p: Params): (Trade, seq<Event>)
    requires t.risk > 0.0 && |touched| == 3 && n <= 3
    ensures Swept(t, touched, n, p).0.risk > 0.0
  {
    if n == 0 then (t, [])
    else
      var (t1, e1) := Swept(t, touched, n - 1, p);
      var (t2, e2) := HitIf(touched[n - 1], t1, n, p);
      (t2, e1 + e2)
  }

  lemma {:induction false} SweptAll(t: Trade, touched: seq<bool>, p: Params)
    requires t.risk > 0.0 && |touched| == 3
    ensures var (t1, e1) := HitIf(touched[0], t, 1, p);
            var (t2, e2) := HitIf(touched[1], t1, 2, p);
            var (t3, e3) := HitIf(touched[2], t2, 3, p);
            Swept(t, touched, 3, p) == (t3, e1 + e2 + e3)
  {
    assert Swept(t, touched, 0, p) == (t, []);
    var first := HitIf(touched[0], t, 1, p);
    assert [] + first.1 == first.1;
    assert Swept(t, touched, 1, p) == first;
  }

  lemma HitRangeStep(t: Trade, l: nat, level: nat, p: Params, out: seq<Event>)
    requires t.risk > 0.0 && 1 <= l <= level <= 3
    ensures HitRange(t, l, level, p).0 == HitRange(Hit(t, l, p).0, l + 1, level, p).0
    ensures out + HitRange(t, l, level, p).1 == (out + Hit(t, l, p).1) + HitRange(Hit(t, l, p).0, l + 1, level, p).1
  {
  }

  lemma SignalHasRisk(p: Params, idx: nat, b: Bar, s: Signals, allowed: bool)
    requires ValidParams(p) && SignalDir(p, idx, b, s, allowed) != 0
    ensures s.atr.GetOr(0.0) * p.slMult > 0.0
    ensures allowed && SignalDir(p, idx, b, s, allowed) in {1, -1}
  {
    var atr := s.atr.GetOr(0.0);
    assert atr > 0.0 && p.slMult > 0.0;
  }
}
