/** From trade events to the target position (`apps/kite-node/src/native_node/model_strategy.rs`,
    `slot_config.rs`): the model and the target never disagree. */
module Plan {
  import opened Common
  import opened Wvad
  import opened TradeLaws
  import opened Orders
  import opened SessionTimes

  /** The lots of a slot and the lots closed at TP1 and TP2. */
  datatype Slot = Slot(lots: nat, tp1Lots: nat, tp2Lots: nat)

  /** `SlotConfig::validate` on the lots. */
  predicate ValidSlot(c: Slot) {
    1 <= c.lots <= 100 && c.tp1Lots + c.tp2Lots < c.lots
  }

  /** `engine_params`: the fractions come from whole lots. */
  ghost predicate Matches(c: Slot, p: Params) {
    ValidSlot(c) && p.f1 == FractionOf(c.tp1Lots, c.lots) && p.f2 == FractionOf(c.tp2Lots, c.lots)
  }

  function FractionOf(lots: nat, all: nat): real
    requires all > 0
  {
    lots as real / all as real
  }

  /** A fraction of the slot, in lots. */
  function InLots(f: real, all: nat): real {
    f * all as real
  }

  lemma FractionFacts(lots: nat, all: nat)
    requires all > 0
    ensures InLots(FractionOf(lots, all), all) == lots as real
    ensures FractionOf(lots, all) >= 0.0 && (FractionOf(lots, all) == 0.0 <==> lots == 0)
  {
  }

  function LevelLots(c: Slot, level: nat): nat {
    if level == 1 then c.tp1Lots else c.tp2Lots
  }

  /** One event moves the target; partials and exits only count for a trade this run opened. */
  function Applied(m: Aim, c: Slot, e: Event, entriesOk: bool): Aim {
    match e
    case Entry(dir, _, _, _, _, _) => if entriesOk then m.(target := dir * c.lots, ours := true) else m
    case Partial(_, level, _, _) =>
      if m.ours then m.(target := Sign(m.target) * Max(Abs(m.target) - LevelLots(c, level), 0)) else m
    case Exit(_, _, _, _, _, _) => if m.ours then m.(target := 0, ours := false) else m
  }

  function AppliedAll(m: Aim, c: Slot, es: seq<Event>, entriesOk: bool): Aim
    decreases |es|
  {
    if |es| == 0 then m else AppliedAll(Applied(m, c, es[0], entriesOk), c, es[1..], entriesOk)
  }

  lemma {:induction false} AppliedSplit(m: Aim, c: Slot, a: seq<Event>, b: seq<Event>, ok: bool)
    ensures AppliedAll(m, c, a + b, ok) == AppliedAll(AppliedAll(m, c, a, ok), c, b, ok)
    decreases |a|
  {
    if |a| == 0 {
      assert a + b == b;
    } else {
      assert (a + b)[1..] == a[1..] + b;
      AppliedSplit(Applied(m, c, a[0], ok), c, a[1..], b, ok);
    }
  }

  /** Lots a trade still holds. */
  function Held(c: Slot, t: Trade): int {
    c.lots - (if t.hit1 then c.tp1Lots else 0) - (if t.hit2 then c.tp2Lots else 0)
  }

  /** The target is the model's trade: its side, its lots. Not ours means no target. */
  ghost predicate Agrees(m: Aim, c: Slot, trade: Option<Trade>) {
    if m.ours then trade.Some? && m.target == trade.value.dir * Held(c, trade.value)
    else m.target == 0
  }

  lemma TargetShrinks(dir: int, open: int, lots: nat)
    requires (dir == 1 || dir == -1) && 0 <= lots < open
    ensures Sign(dir * open) * Max(Abs(dir * open) - lots, 0) == dir * (open - lots)
  {
  }

  lemma {:induction false} HitApplies(m: Aim, c: Slot, t: Trade, level: nat, p: Params, ok: bool)
    requires ValidParams(p) && Matches(c, p) && Sound(t, p) && Due(t, level) && Agrees(m, c, Some(t))
    ensures Agrees(AppliedAll(m, c, Hit(t, level, p).1, ok), c, Some(Hit(t, level, p).0))
    ensures AppliedAll(m, c, Hit(t, level, p).1, ok) == m.(target := AppliedAll(m, c, Hit(t, level, p).1, ok).target)
  {
    if !IsHit(t, level) {
      HitBooks(t, level, p);
      var f := LevelFraction(p, level);
      if f > 0.0 {
        var e := Partial(t.dir, level, LevelPrice(t, level), f);
        assert AppliedAll(m, c, [e], ok) == Applied(m, c, e, ok);
        TargetShrinks(t.dir, Held(c, t), LevelLots(c, level));
      } else if level < 3 {
        FractionFacts(LevelLots(c, level), c.lots);
      }
    }
  }

  lemma {:induction false} HitRangeApplies(m: Aim, c: Slot, t: Trade, from: nat, upto: nat, p: Params, ok: bool)
    requires ValidParams(p) && Matches(c, p) && Sound(t, p) && 1 <= from && upto <= 3 && Agrees(m, c, Some(t))
    requires from <= 3 ==> Due(t, from)
    ensures var (u, evs) := HitRange(t, from, upto, p);
            var m2 := AppliedAll(m, c, evs, ok);
            Agrees(m2, c, Some(u)) && m2 == m.(target := m2.target)
    decreases 4 - from
  {
    if from <= upto {
      HitSound(t, from, p);
      HitApplies(m, c, t, from, p, ok);
      var (t1, e1) := Hit(t, from, p);
      var m1 := AppliedAll(m, c, e1, ok);
      HitRangeApplies(m1, c, t1, from + 1, upto, p, ok);
      AppliedSplit(m, c, e1, HitRange(t1, from + 1, upto, p).1, ok);
    }
  }

  /** Events of a trade that is not ours leave the target alone until an entry. */
  lemma {:induction false} NotOursIgnored(m: Aim, c: Slot, es: seq<Event>, ok: bool)
    requires !m.ours && forall i :: 0 <= i < |es| ==> !es[i].Entry?
    ensures AppliedAll(m, c, es, ok) == m
    decreases |es|
  {
    if |es| > 0 {
      assert forall i :: 0 <= i < |es[1..]| ==> es[1..][i] == es[i + 1];
      NotOursIgnored(Applied(m, c, es[0], ok), c, es[1..], ok);
    }
  }

  lemma {:induction false} ExitApplies(m: Aim, c: Slot, evs: seq<Event>, e: Event, ok: bool)
    requires e.Exit? && (AppliedAll(m, c, evs, ok).ours || AppliedAll(m, c, evs, ok).target == 0)
    ensures AppliedAll(m, c, evs + [e], ok) == AppliedAll(m, c, evs, ok).(target := 0, ours := false)
  {
    AppliedSplit(m, c, evs, [e], ok);
    assert AppliedAll(AppliedAll(m, c, evs, ok), c, [e], ok) == Applied(AppliedAll(m, c, evs, ok), c, e, ok);
  }

  /** Hits of a riding trade, whoever opened it. */
  lemma RangeAgrees(m: Aim, c: Slot, t: Trade, upto: nat, p: Params, ok: bool)
    requires ValidParams(p) && Matches(c, p) && Riding(t, p) && upto <= 3 && Agrees(m, c, Some(t))
    ensures var (u, evs) := HitRange(t, 1, upto, p);
            var m2 := AppliedAll(m, c, evs, ok);
            Agrees(m2, c, Some(u)) && m2 == m.(target := m2.target)
  {
    if m.ours {
      HitRangeApplies(m, c, t, 1, upto, p, ok);
    } else {
      RangeHasNoEntry(t, 1, upto, p);
      NotOursIgnored(m, c, HitRange(t, 1, upto, p).1, ok);
    }
  }

  lemma {:induction false} MarkAgrees(m: Aim, c: Slot, t: Trade, level: nat, p: Params)
    requires ValidParams(p) && Matches(c, p) && Riding(t, p) && 1 <= level <= 3 && Agrees(m, c, Some(t))
    ensures var (trade, evs) := MarkTarget(Some(t), level, p);
            var m2 := AppliedAll(m, c, evs, false);
            Agrees(m2, c, trade) && m2.halted == m.halted
  {
    RangeAgrees(m, c, t, level, p, false);
    var (u, evs) := HitRange(t, 1, level, p);
    if level >= 3 {
      ExitApplies(m, c, evs, Finish(u, u.tp3, Tp3), false);
    }
  }

  lemma {:induction false} CloseAgrees(m: Aim, c: Slot, t: Trade, px: real, reason: Reason)
    requires t.risk > 0.0 && Agrees(m, c, Some(t))
    ensures AppliedAll(m, c, [Finish(t, px, reason)], false) == m.(target := 0, ours := false)
  {
    assert AppliedAll(m, c, [], false) == m;
    ExitApplies(m, c, [], Finish(t, px, reason), false);
    assert [] + [Finish(t, px, reason)] == [Finish(t, px, reason)];
  }

  lemma ManageAgrees(m: Aim, c: Slot, t: Trade, p: Params, b: Bar, dir: int, ok: bool)
    requires ValidParams(p) && Matches(c, p) && Riding(t, p) && Agrees(m, c, Some(t))
    ensures var (trade, evs) := Manage(t, p, b, dir);
            var m2 := AppliedAll(m, c, evs, ok);
            Agrees(m2, c, trade) && m2.halted == m.halted && (trade.None? ==> !m2.ours) && (m2.ours ==> m.ours)
  {
    if Stopped(t, b) {
      var e := Finish(StoppedOut(t, p, b), StopFill(t, b), StopReason(t));
      assert AppliedAll(m, c, [], ok) == m;
      ExitApplies(m, c, [], e, ok);
      assert [] + [e] == [e];
    } else {
      ManageIsOutcome(t, p, b, dir);
      OutcomeAgrees(m, c, t, p, b, dir, Reach(t, p, b), ok);
    }
  }

  lemma OutcomeAgrees(m: Aim, c: Slot, t: Trade, p: Params, b: Bar, dir: int, reach: nat, ok: bool)
    requires ValidParams(p) && Matches(c, p) && Riding(t, p) && Agrees(m, c, Some(t)) && reach <= 3
    ensures var (trade, evs) := Outcome(t, p, b, dir, reach);
            var m2 := AppliedAll(m, c, evs, ok);
            Agrees(m2, c, trade) && m2.halted == m.halted && (trade.None? ==> !m2.ours) && (m2.ours ==> m.ours)
  {
    RangeAgrees(m, c, t, reach, p, ok);
    var (u, evs) := HitRange(t, 1, reach, p);
    if reach == 3 {
      ExitApplies(m, c, evs, Finish(u, u.tp3, Tp3), ok);
    } else if dir == -t.dir {
      ExitApplies(m, c, evs, Finish(u, b.close, Reversal), ok);
    }
  }

  /** One bar: the target follows the trade, an entry included. */
  lemma BarAgrees(st: State, m: Aim, c: Slot, p: Params, b: Bar, s: Signals, allowed: bool, ok: bool)
    requires ValidParams(p) && Matches(c, p) && TradeLaws.Inv(st, p) && Agrees(m, c, st.trade) && (allowed ==> ok)
    ensures var (st2, evs) := OnBar(st, p, b, s, allowed);
            var m2 := AppliedAll(m, c, evs, ok);
            Agrees(m2, c, st2.trade) && m2.halted == m.halted && (m2.ours && !m.ours ==> ok)
  {
    var dir := SignalDir(p, st.barIndex, b, s, allowed);
    if st.trade.Some? {
      ManageAgrees(m, c, st.trade.value, p, b, dir, ok);
    }
    var (t, evs) := if st.trade.Some? then Manage(st.trade.value, p, b, dir) else (st.trade, []);
    if dir != 0 && t.None? {
      SignalHasRisk(p, st.barIndex, b, s, allowed);
      var u := Opened(p, st.barIndex, b, s, dir);
      var m1 := AppliedAll(m, c, evs, ok);
      AppliedSplit(m, c, evs, [EntryOf(u)], ok);
      assert AppliedAll(m1, c, [EntryOf(u)], ok) == Applied(m1, c, EntryOf(u), ok);
    }
  }

  // -------------------------------------------------------------- the planned run

  /** The model side of the strategy: engine, aim, the day already squared off, live or still warming. */
  datatype Planned = Planned(eng: State, m: Aim, squared: Option<int>, live: bool)

  /** What a live bar brings besides its prices: its day, whether entries are allowed at its time, the
      square-off is due, it came too late, and a stop is requested. */
  datatype Clock = Clock(day: int, entryTime: bool, squareOff: bool, late: bool, stopping: bool)

  const SECOND: int := 1_000_000_000
  /** A bar that comes later than this after its close (ns) opens no trade. */
  const MAX_ENTRY_LATENESS_NS: int := 90 * SECOND

  /** What a bar closing at `closeNs` brings when it is handled at `now` (both ns). */
  function ClockAt(r: Rules, closeNs: int, now: int, stopping: bool): Clock {
    var ts := closeNs / SECOND;
    Clock(Day(ts), EntriesAllowed(r, ts), SquareOffDue(r, ts), now - closeNs > MAX_ENTRY_LATENESS_NS, stopping)
  }

  datatype Act =
    | WarmBar(b: Bar, s: Signals, entryTime: bool)
    | LiveBar(b: Bar, s: Signals, k: Clock)
    | Quote(bid: real, ask: real)
    | Halting
    | Abandoning

  /** A live bar before its square-off: a warm-up trade is dropped first, then the engine's events. */
  function BarPlanned(x: Planned, c: Slot, p: Params, b: Bar, s: Signals, k: Clock): Planned
    requires x.eng.trade.Some? ==> x.eng.trade.value.risk > 0.0
  {
    var eng := if x.live then x.eng else State(x.eng.barIndex, None);
    var ok := x.squared != Some(k.day) && !k.late && !x.m.halted && !k.stopping;
    var (eng2, evs) := OnBar(eng, p, b, s, k.entryTime && ok);
    Planned(eng2, AppliedAll(x.m, c, evs, ok), x.squared, true)
  }

  /** The square-off after a bar. */
  function SquaredOff(x: Planned, c: Slot, b: Bar, k: Clock): Planned
    requires x.eng.trade.Some? ==> x.eng.trade.value.risk > 0.0
  {
    if k.squareOff && x.squared != Some(k.day) then
      var m := AppliedAll(x.m, c, ForceClose(x.eng.trade, b.close, SquareOff), false);
      Planned(State(x.eng.barIndex, None), m.(target := 0), Some(k.day), x.live)
    else x
  }

  /** `check_levels` on a quote: stop first, then the farthest target reached, on the executable price. */
  function QuoteOutcome(x: Planned, p: Params, bid: real, ask: real): (Option<Trade>, seq<Event>)
    requires x.eng.trade.Some? ==> x.eng.trade.value.risk > 0.0
  {
    if !x.m.ours || x.m.halted || x.eng.trade.None? then (x.eng.trade, [])
    else Tick(x.eng.trade, p, if x.eng.trade.value.dir == 1 then bid else ask)
  }

  function QuotePlanned(x: Planned, c: Slot, p: Params, bid: real, ask: real): Planned
    requires x.eng.trade.Some? ==> x.eng.trade.value.risk > 0.0
  {
    var (t, evs) := QuoteOutcome(x, p, bid, ask);
    x.(eng := State(x.eng.barIndex, t), m := AppliedAll(x.m, c, evs, false))
  }

  ghost predicate Together(x: Planned, c: Slot, p: Params) {
    && TradeLaws.Inv(x.eng, p) && Agrees(x.m, c, x.eng.trade)
    && (x.m.halted ==> !x.m.ours)
    && (!x.live ==> !x.m.ours)
  }

  function Step(x: Planned, c: Slot, p: Params, a: Act): Planned
    requires x.eng.trade.Some? ==> x.eng.trade.value.risk > 0.0
    requires ValidParams(p) && Together(x, c, p) && Matches(c, p)
  {
    match a
    case WarmBar(b, s, entryTime) =>
      if x.live then x else x.(eng := OnBar(x.eng, p, b, s, entryTime).0)
    case LiveBar(b, s, k) =>
      BarTogether(x, c, p, b, s, k);
      SquaredOff(BarPlanned(x, c, p, b, s, k), c, b, k)
    case Quote(bid, ask) => QuotePlanned(x, c, p, bid, ask)
    case Halting => x.(m := Halted(x.m))
    case Abandoning => x.(m := x.m.(target := 0, ours := false))
  }

  lemma BarTogether(x: Planned, c: Slot, p: Params, b: Bar, s: Signals, k: Clock)
    requires ValidParams(p) && Matches(c, p) && Together(x, c, p)
    ensures Together(BarPlanned(x, c, p, b, s, k), c, p)
  {
    var eng := if x.live then x.eng else State(x.eng.barIndex, None);
    var ok := x.squared != Some(k.day) && !k.late && !x.m.halted && !k.stopping;
    BarAgrees(eng, x.m, c, p, b, s, k.entryTime && ok, ok);
    BarPosts(eng, p, b, s, k.entryTime && ok);
  }

  lemma QuoteTogether(x: Planned, c: Slot, p: Params, bid: real, ask: real)
    requires ValidParams(p) && Matches(c, p) && Together(x, c, p)
    ensures Together(QuotePlanned(x, c, p, bid, ask), c, p)
  {
    if x.m.ours && !x.m.halted {
      var t := x.eng.trade.value;
      var px := if t.dir == 1 then bid else ask;
      TickRides(x.eng.trade, p, px);
      if Signed(t.dir, px - t.stop) <= 0.0 {
        CloseAgrees(x.m, c, t, px, StopReason(t));
      } else if TickLevel(t, px) > 0 {
        MarkAgrees(x.m, c, t, TickLevel(t, px), p);
      }
    }
  }

  lemma StepTogether(x: Planned, c: Slot, p: Params, a: Act)
    requires ValidParams(p) && Matches(c, p) && Together(x, c, p)
    ensures Together(Step(x, c, p, a), c, p)
  {
    match a
    case WarmBar(b, s, entryTime) => BarPosts(x.eng, p, b, s, entryTime);
    case LiveBar(b, s, k) =>
      BarTogether(x, c, p, b, s, k);
      var y := BarPlanned(x, c, p, b, s, k);
      if y.eng.trade.Some? {
        CloseAgrees(y.m, c, y.eng.trade.value, b.close, SquareOff);
      }
    case Quote(bid, ask) => QuoteTogether(x, c, p, bid, ask);
    case Halting =>
    case Abandoning =>
  }

  /** The plan after any sequence of bars, quotes, halts and abandoned trades. */
  ghost function PlanRun(c: Slot, p: Params, acts: seq<Act>): (x: Planned)
    requires ValidParams(p) && Matches(c, p)
    ensures Together(x, c, p)
  {
    if |acts| == 0 then Planned(State(0, None), Aim(0, false, false), None, false)
    else
      var x := PlanRun(c, p, Front(acts));
      StepTogether(x, c, p, Last(acts));
      Step(x, c, p, Last(acts))
  }

  /** In exact arithmetic the lots held are the open fraction of the slot's lots. */
  lemma HeldIsRemaining(c: Slot, t: Trade, p: Params)
    requires Matches(c, p) && Counted(t, p)
    ensures Held(c, t) as real == InLots(t.remaining, c.lots)
    ensures 1 <= Held(c, t) <= c.lots
  {
    FractionFacts(c.tp1Lots, c.lots);
    FractionFacts(c.tp2Lots, c.lots);
    Remainder(if t.hit1 then p.f1 else 0.0, if t.hit2 then p.f2 else 0.0, c.lots);
  }

  lemma Remainder(x: real, y: real, all: nat)
    ensures InLots(1.0 - x - y, all) == all as real - InLots(x, all) - InLots(y, all) && InLots(0.0, all) == 0.0
  {
  }

  /** The model and the target tell the same story. */
  ghost predicate SameStory(x: Planned, c: Slot) {
    && (x.m.ours ==>
          && x.eng.trade.Some?
          && var t := x.eng.trade.value;
             && (t.hit2 ==> t.hit1) && !t.hit3
             && x.m.target == t.dir * (c.lots - (if t.hit1 then c.tp1Lots else 0) - (if t.hit2 then c.tp2Lots else 0))
             && Abs(x.m.target) as real == InLots(t.remaining, c.lots))
    && (!x.m.ours ==> x.m.target == 0)
    && (x.m.halted ==> !x.m.ours)
    && Abs(x.m.target) <= c.lots
  }

  lemma TogetherTellsOneStory(x: Planned, c: Slot, p: Params)
    requires ValidParams(p) && Matches(c, p) && Together(x, c, p)
    ensures SameStory(x, c)
  {
    if x.m.ours {
      HeldIsRemaining(c, x.eng.trade.value, p);
      assert Abs(x.m.target) == Held(c, x.eng.trade.value);
    }
  }

  /** Model and target never disagree: in every reachable state a trade that is ours is open in the
      engine, its target hits are prefix-closed, and the target is its side times the lots it holds,
      which is exactly its open fraction of the lots; otherwise the target is 0. A halted run wants
      nothing. */
  lemma {:induction false} ModelAndTargetAgree(c: Slot, p: Params, acts: seq<Act>)
    requires ValidParams(p) && Matches(c, p)
    ensures SameStory(PlanRun(c, p, acts), c)
  {
    TogetherTellsOneStory(PlanRun(c, p, acts), c, p);
  }
}
