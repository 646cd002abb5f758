/** The mutable strategy (`apps/kite-node/src/native_node/model_strategy.rs`), proved against the order
    protocol and the plan. The broker's cache, the clock and the run flags are its `world`. */
module Strategy {
  import opened Common
  import W = Wvad
  import opened Orders
  import opened Plan
  import TradeLaws
  import opened SessionTimes

  class ModelStrategy {
    const slot: Slot
    const rules: Rules
    const engine: W.Engine
    /** When live trading started: bars that close until then only warm the model. */
    const startNs: int
    var lastCloseNs: int
    var target: int
    var ours: bool
    var halted: bool
    var squared: Option<int>
    var live: bool
    var inFlight: Option<(int, int)>
    var timedOut: seq<int>
    var attempts: nat
    var lastFlatten: int
    var exitCancels: nat
    var world: World

    function Wish(): Aim
      reads this
    {
      Aim(target, ours, halted)
    }

    /** The strategy and its broker as the order protocol sees them. */
    function System(): Sys
      reads this
    {
      Sys(Wish(), Desk(inFlight, timedOut, attempts, lastFlatten, exitCancels), world)
    }

    /** The strategy and its model as the plan sees them. */
    function Model(): Planned
      reads this, engine
    {
      Planned(engine.View(), Wish(), squared, live)
    }

    /** The model and the target agree. */
    ghost predicate InStep()
      reads this, engine
    {
      && engine.Valid() && Matches(slot, engine.p) && (live ==> lastCloseNs > startNs)
      && (var ok := Together(Model(), slot, engine.p); ok)
    }

    /** Both invariants: the model and the target agree, and the order book is in order. */
    ghost predicate Valid()
      reads this, engine
    {
      InStep() && (var ok := Orders.Inv(slot.lots, System()); ok)
    }

    /** The same when the cache has a fill that the strategy has not handled. */
    ghost predicate FillPending()
      reads this, engine
    {
      InStep() && (var ok := Orders.Core(slot.lots, System()); ok)
    }

    constructor (slot: Slot, rules: Rules, p: W.Params, now: int, startNs: int)
      requires W.ValidParams(p) && Matches(slot, p)
      ensures Valid() && fresh(this) && fresh(engine) && System() == Initial(now)
      ensures Model() == Planned(W.State(0, None), Aim(0, false, false), None, false)
    {
      this.slot, this.rules := slot, rules;
      this.startNs, this.lastCloseNs := startNs, 0;
      this.engine := new W.Engine(p);
      this.target, this.ours, this.halted := 0, false, false;
      this.squared, this.live := None, false;
      this.inFlight, this.timedOut, this.attempts, this.lastFlatten, this.exitCancels := None, [], 0, 0, 0;
      this.world := World(map[], 0, 0, now, false, true, [], 0, 0);
    }

    method Halt()
      modifies this`target, this`ours, this`halted
      ensures Wish() == Halted(old(Wish()))
    {
      halted := true;
      target := 0;
      ours := false;
    }

    /** Engine events move the target. */
    method Apply(events: seq<W.Event>, entriesOk: bool)
      modifies this`target, this`ours
      ensures Wish() == AppliedAll(old(Wish()), slot, events, entriesOk)
    {
      var i := 0;
      while i < |events|
        invariant 0 <= i <= |events|
        invariant AppliedAll(Wish(), slot, events[i..], entriesOk) == AppliedAll(old(Wish()), slot, events, entriesOk)
      {
        assert events[i..][1..] == events[i + 1..];
        match events[i] {
          case Entry(dir, _, _, _, _, _) =>
            if entriesOk {
              target := dir * slot.lots;
              ours := true;
            }
          case Partial(_, level, _, _) =>
            if ours {
              var lots := if level == 1 then slot.tp1Lots else slot.tp2Lots;
              target := Sign(target) * Max(Abs(target) - lots, 0);
            }
          case Exit(_, _, _, _, _, _) =>
            if ours {
              target := 0;
              ours := false;
            }
        }
        i := i + 1;
      }
    }

    /** A timed-out order that has ended no longer keeps the strategy from reporting itself flat. */
    method ForgetClosedTimedOut()
      modifies this`timedOut
      ensures timedOut == StillOpen(old(timedOut), world)
    {
      var ids, w := timedOut, world;
      var open := [];
      var i := 0;
      while i < |ids|
        invariant 0 <= i <= |ids|
        invariant open + StillOpen(ids[i..], w) == StillOpen(ids, w)
      {
        StillOpenStep(open, ids, i, w);
        if !(ids[i] in w.orders && w.orders[ids[i]].closed) {
          open := open + [ids[i]];
        }
        i := i + 1;
      }
      assert open + [] == open;
      timedOut := open;
    }

    /** One market order at a time toward the target; `ok` says whether a submission succeeds. */
    method Reconcile(ok: bool) returns (failed: bool)
      modifies this`target, this`ours, this`halted, this`inFlight, this`timedOut, this`attempts, this`lastFlatten,
          this`world
      ensures System() == Orders.Reconcile(old(System()), ok)
      ensures failed == SubmitFails(old(System()), ok)
    {
      failed := false;
      if inFlight.Some? {
        var (id, sent) := inFlight.value;
        if id in world.orders && world.orders[id].closed {
          inFlight := None;
        } else {
          if world.now - sent > IN_FLIGHT_NS {
            inFlight := None;
            timedOut := timedOut + [id];
            world := world.(timeouts := world.timeouts + 1);
            Halt();
          }
          return;
        }
      }
      ForgetClosedTimedOut();
      assert System() == Cleared(old(System()));
      failed := MoveTowardTarget(ok);
    }

    method MoveTowardTarget(ok: bool) returns (failed: bool)
      modifies this`target, this`ours, this`halted, this`inFlight, this`attempts, this`lastFlatten, this`world
      ensures System() == Move(old(System()), ok)
      ensures failed == (!ok && |world.sent| > |old(world.sent)|)
    {
      failed := false;
      var pos := world.pos;
      var goal := if halted || world.stopping then 0 else target;
      if pos == goal {
        world := world.(flat := pos == 0 && timedOut == []);
        return;
      }
      if halted && !FlattenDue(attempts, lastFlatten, world.now) {
        world := world.(flat := false);
        return;
      }
      var next := NextOrder(pos, goal);
      if next.None? {
        Halt();
        return;
      }
      if halted {
        attempts := attempts + 1;
        lastFlatten := world.now;
      }
      inFlight := Some((world.nextId, world.now));
      world := world.(flat := false, nextId := world.nextId + 1,
                      orders := if ok then world.orders[world.nextId := Order(next.value, 0, false, false)]
                          else world.orders,
                      sent := world.sent + [Sent(next.value, pos, halted, Calm(world), world.now)]);
      failed := !ok;
    }

    /** A cancelled or expired order: the cache does not show it as working. */
    method OnClosedByBroker(id: int)
      requires Valid() && !IsWorking(world, id)
      modifies this`target, this`ours, this`halted, this`inFlight, this`exitCancels
      ensures Valid() && System() == ClosedByBroker(old(System()), id)
    {
      ClosedByBrokerKeeps(slot.lots, System(), id);
      ClosedTogether(Model(), slot, engine.p, System(), id);
      CloseOrders(id);
    }

    /** The slot is free; then retry the exit, abandon the trade, or halt. */
    method CloseOrders(id: int)
      modifies this`target, this`ours, this`halted, this`inFlight, this`exitCancels
      ensures System() == ClosedByBroker(old(System()), id)
    {
      if inFlight.Some? && inFlight.value.0 == id {
        inFlight := None;
      }
      var reduceOnly := if id in world.orders then Some(world.orders[id].ticket.reduce) else None;
      match OnBrokerClosed(reduceOnly, exitCancels)
      case RetryExit =>
        exitCancels := exitCancels + 1;
      case AbandonTrade =>
        target := 0;
        ours := false;
      case HaltNow =>
        Halt();
    }

    /** A rejected or denied order: the cache does not show it as working. */
    method OnRefusedOrder(id: int)
      requires Valid() && !IsWorking(world, id)
      modifies this`target, this`ours, this`halted, this`inFlight
      ensures Valid() && System() == OnRefused(old(System()), id)
    {
      OnRefusedKeeps(slot.lots, System(), id);
      if inFlight.Some? && inFlight.value.0 == id {
        inFlight := None;
      }
      Halt();
    }

    /** A fill: the cache already has it. */
    method OnFilled(ok: bool)
      requires FillPending()
      modifies this
      ensures Valid() && System() == OnFill(old(System()), ok)
      ensures squared == old(squared) && live == old(live) && lastCloseNs == old(lastCloseNs)
    {
      OnFillKeeps(slot.lots, System(), ok);
      FillTogether(Model(), slot, engine.p, System(), ok);
      FillOrders(ok);
    }

    /** Reconciliation after a fill; a submission that fails here has no caller to report to and halts. */
    method FillOrders(ok: bool)
      modifies this`target, this`ours, this`halted, this`inFlight, this`timedOut, this`attempts, this`lastFlatten,
          this`world, this`exitCancels
      ensures System() == OnFill(old(System()), ok)
    {
      exitCancels := 0;
      var failed := Reconcile(ok);
      if failed {
        Halt();
      }
    }

    /** The guard tick. */
    method OnTimer(ok: bool)
      requires Valid()
      modifies this
      ensures Valid() && System() == OnGuard(old(System()), ok)
      ensures squared == old(squared) && live == old(live) && lastCloseNs == old(lastCloseNs)
    {
      OnGuardKeeps(slot.lots, System(), ok);
      GuardTogether(Model(), slot, engine.p, System(), ok);
      GuardOrders(ok);
    }

    /** A requested stop halts; then one order toward the target and an honest flat flag. */
    method GuardOrders(ok: bool)
      requires Aimable(slot.lots, Wish())
      modifies this`target, this`ours, this`halted, this`inFlight, this`timedOut, this`attempts, this`lastFlatten,
          this`world
      ensures System() == OnGuard(old(System()), ok)
    {
      if world.stopping && !halted {
        Halt();
      }
      FailedIsInFlight(System(), ok);
      var failed := Reconcile(ok);
      if !failed && inFlight.None? {
        world := world.(flat := world.pos == 0 && timedOut == []);
      }
    }

    /** Every quote: stop first, then the targets, on the executable price. */
    method CheckLevels(bid: real, ask: real, ok: bool) returns (events: seq<W.Event>)
      requires Valid()
      modifies this, engine
      ensures Valid() && lastCloseNs == old(lastCloseNs)
      ensures events == QuoteOutcome(old(Model()), engine.p, bid, ask).1
      ensures var x := QuotePlanned(old(Model()), slot, engine.p, bid, ask);
              && engine.View() == x.eng && squared == x.squared && live == x.live
              && (System() == old(System()).(m := x.m) || System() == Orders.Reconcile(old(System()).(m := x.m), ok))
              && (x.m != old(Wish()) ==> System() == Orders.Reconcile(old(System()).(m := x.m), ok))
    {
      QuoteTogether(Model(), slot, engine.p, bid, ask);
      var acted;
      acted, events := PlanQuote(bid, ask);
      if acted {
        PlanReconciles(Model(), slot, engine.p, System(), ok);
        AimedKeeps(slot.lots, old(System()), Wish(), ok);
        var _ := Reconcile(ok);
      }
    }

    /** The engine and the target on a quote, before any order. */
    method PlanQuote(bid: real, ask: real) returns (acted: bool, events: seq<W.Event>)
      requires engine.Valid()
      modifies this`target, this`ours, engine
      ensures engine.Valid() && Model() == QuotePlanned(old(Model()), slot, engine.p, bid, ask)
      ensures events == QuoteOutcome(old(Model()), engine.p, bid, ask).1
      ensures !acted ==> Model() == old(Model())
    {
      if !ours || halted || engine.trade.None? {
        return false, [];
      }
      var t := engine.trade.value;
      var px := if t.dir == 1 then bid else ask;
      if W.Signed(t.dir, px - t.stop) <= 0.0 {
        events := engine.ForceCloseTrade(px, W.StopReason(t));
      } else {
        var level := TradeLaws.TickLevel(t, px);
        if level == 0 {
          return false, [];
        }
        events := engine.Mark(level);
      }
      Apply(events, false);
      acted := true;
    }

    /** A bar from the feed: a repeated or out-of-order one is ignored, one of the warm-up only feeds the
        model, any other is traded. */
    method OnBar(closeNs: int, b: W.Bar, s: W.Signals, ok: bool)
      requires Valid()
      modifies this, engine
      ensures Valid() && lastCloseNs == Max(old(lastCloseNs), closeNs)
      ensures closeNs <= old(lastCloseNs) ==> Model() == old(Model()) && System() == old(System())
      ensures old(lastCloseNs) < closeNs <= startNs ==>
                Model() == old(Model()).(
                  eng := W.OnBar(old(engine.View()), engine.p, b, s, EntriesAllowed(rules, closeNs / SECOND)).0)
                && System() == old(System()) && !live
      ensures closeNs > old(lastCloseNs) && closeNs > startNs ==>
                var k := ClockAt(rules, closeNs, old(world.now), old(world.stopping));
                BarTraded(old(Model()), old(System()), slot, engine.p, b, s, k, ok, Model(), System())
    {
      if closeNs <= lastCloseNs {
        return;
      }
      var ts := closeNs / SECOND;
      if closeNs <= startNs {
        WarmUp(closeNs, b, s, EntriesAllowed(rules, ts));
      } else {
        lastCloseNs := closeNs;
        var late := world.now - closeNs > MAX_ENTRY_LATENESS_NS;
        var k := Clock(Day(ts), EntriesAllowed(rules, ts), SquareOffDue(rules, ts), late, world.stopping);
        OnLiveBar(b, s, k, ok);
      }
    }

    /** A warm-up bar: model only, never orders. */
    method WarmUp(closeNs: int, b: W.Bar, s: W.Signals, entryTime: bool)
      requires Valid() && lastCloseNs < closeNs <= startNs
      modifies this`lastCloseNs, engine
      ensures Valid() && lastCloseNs == closeNs && System() == old(System()) && !live
      ensures Model() == old(Model()).(eng := W.OnBar(old(engine.View()), engine.p, b, s, entryTime).0)
    {
      StepTogether(Model(), slot, engine.p, WarmBar(b, s, entryTime));
      lastCloseNs := closeNs;
      var _ := engine.Feed(b, s, entryTime);
    }

    /** A live bar: engine events, the square-off when it is due, then one order toward the target. */
    method OnLiveBar(b: W.Bar, s: W.Signals, k: Plan.Clock, ok: bool)
      requires Valid() && k.stopping == world.stopping && lastCloseNs > startNs
      modifies this, engine
      ensures Valid() && lastCloseNs == old(lastCloseNs)
      ensures BarTraded(old(Model()), old(System()), slot, engine.p, b, s, k, ok, Model(), System())
    {
      ghost var x := SquaredOff(BarPlanned(Model(), slot, engine.p, b, s, k), slot, b, k);
      BarKeeps(Model(), slot, engine.p, b, s, k, System(), ok);
      FollowPlan(b, s, k, ok, x);
    }

    /** A live bar whose plan is `x`. */
    method FollowPlan(b: W.Bar, s: W.Signals, k: Plan.Clock, ok: bool, ghost x: Planned)
      requires Valid() && k.stopping == world.stopping && lastCloseNs > startNs
      requires IsPlanned(Model(), slot, engine.p, b, s, k, x)
      requires Orders.Inv(slot.lots, Orders.Reconcile(System().(m := x.m), ok))
      requires Together(x, slot, engine.p)
               && Together(x.(m := Orders.Reconcile(System().(m := x.m), ok).m), slot, engine.p)
      modifies this, engine
      ensures Valid() && lastCloseNs == old(lastCloseNs)
      ensures engine.View() == x.eng && squared == x.squared && live == x.live
      ensures System() == Orders.Reconcile(old(System()).(m := x.m), ok)
    {
      PlanHasRisk(Model(), slot, engine.p, b, s, k);
      PlanBar(b, s, k);
      PlannedOnce(old(Model()), slot, engine.p, b, s, k, x, Model());
      PlanReconciles(x, slot, engine.p, System(), ok);
      var _ := Reconcile(ok);
    }

    /** The engine and the target over a live bar, before any order. */
    method PlanBar(b: W.Bar, s: W.Signals, k: Plan.Clock)
      requires engine.Valid() && k.stopping == world.stopping
      requires BarPlanned(Model(), slot, engine.p, b, s, k).eng.trade.Some?
               ==> BarPlanned(Model(), slot, engine.p, b, s, k).eng.trade.value.risk > 0.0
      modifies this`live, this`squared, this`target, this`ours, engine
      ensures engine.Valid()
      ensures IsPlanned(old(Model()), slot, engine.p, b, s, k, Model())
    {
      ghost var x := Model();
      FeedBar(b, s, k);
      ghost var y := Model();
      assert y == BarPlanned(x, slot, engine.p, b, s, k);
      SquareOffIfDue(b, k);
      assert IsPlanned(x, slot, engine.p, b, s, k, Model());
    }

    /** A warm-up trade is dropped, the engine fed, its events applied. */
    method FeedBar(b: W.Bar, s: W.Signals, k: Plan.Clock)
      requires engine.Valid() && k.stopping == world.stopping
      modifies this`live, this`target, this`ours, engine
      ensures engine.Valid() && Model() == BarPlanned(old(Model()), slot, engine.p, b, s, k)
    {
      if !live {
        live := true;
        var _ := engine.ForceCloseTrade(b.open, W.LiveStart);
      }
      var blocked := squared == Some(k.day);
      var entriesOk := !blocked && !k.late && !halted && !world.stopping;
      var events := engine.Feed(b, s, k.entryTime && entriesOk);
      Apply(events, entriesOk);
    }

    /** The square-off, once a day. */
    method SquareOffIfDue(b: W.Bar, k: Plan.Clock)
      requires engine.Valid()
      modifies this`squared, this`target, this`ours, engine
      ensures engine.Valid() && Model() == SquaredOff(old(Model()), slot, b, k)
    {
      if k.squareOff && squared != Some(k.day) {
        squared := Some(k.day);
        var closing := engine.ForceCloseTrade(b.close, W.SquareOff);
        Apply(closing, false);
        target := 0;
      }
    }
  }

  ghost predicate HasRisk(x: Planned) {
    x.eng.trade.Some? ==> x.eng.trade.value.risk > 0.0
  }

  /** `y` is the plan of the live bar; stated so that its users need not look inside. */
  ghost predicate IsPlanned(x: Planned, c: Slot, p: W.Params, b: W.Bar, s: W.Signals, k: Plan.Clock, y: Planned) {
    forall z | z == x && HasRisk(z) && HasRisk(BarPlanned(z, c, p, b, s, k)) ::
      y == SquaredOff(BarPlanned(z, c, p, b, s, k), c, b, k)
  }

  /** A live bar traded: the plan of the bar, then one reconciliation toward its target. */
  ghost predicate BarTraded(
    x: Planned, sys: Sys, c: Slot, p: W.Params, b: W.Bar, s: W.Signals, k: Plan.Clock, ok: bool, after: Planned,
        sys2: Sys)
  {
    exists y :: IsPlanned(x, c, p, b, s, k, y) && after == y.(m := sys2.m)
        && sys2 == Orders.Reconcile(sys.(m := y.m), ok)
  }

  lemma PlanHasRisk(x: Planned, c: Slot, p: W.Params, b: W.Bar, s: W.Signals, k: Plan.Clock)
    requires W.ValidParams(p) && Matches(c, p) && Together(x, c, p)
    ensures HasRisk(x) && HasRisk(BarPlanned(x, c, p, b, s, k))
  {
    BarTogether(x, c, p, b, s, k);
  }

  lemma PlannedOnce(x: Planned, c: Slot, p: W.Params, b: W.Bar, s: W.Signals, k: Plan.Clock, y: Planned, z: Planned)
    requires W.ValidParams(p) && Matches(c, p) && Together(x, c, p)
    requires IsPlanned(x, c, p, b, s, k, y) && IsPlanned(x, c, p, b, s, k, z)
    ensures y == z
  {
    PlanHasRisk(x, c, p, b, s, k);
    var _ := BarPlanned(x, c, p, b, s, k);
  }

  /** A live bar keeps both invariants. */
  lemma BarKeeps(x: Planned, c: Slot, p: W.Params, b: W.Bar, s: W.Signals, k: Plan.Clock, sys: Sys, ok: bool)
    requires W.ValidParams(p) && Matches(c, p) && Together(x, c, p) && sys.m == x.m && Orders.Inv(c.lots, sys)
    ensures Together(BarPlanned(x, c, p, b, s, k), c, p)
    ensures var y := SquaredOff(BarPlanned(x, c, p, b, s, k), c, b, k);
            && Together(y, c, p)
            && Orders.Inv(c.lots, Orders.Reconcile(sys.(m := y.m), ok))
            && Together(y.(m := Orders.Reconcile(sys.(m := y.m), ok).m), c, p)
  {
    BarTogether(x, c, p, b, s, k);
    StepTogether(x, c, p, LiveBar(b, s, k));
    var y := SquaredOff(BarPlanned(x, c, p, b, s, k), c, b, k);
    PlanReconciles(y, c, p, sys.(m := y.m), ok);
    AimedKeeps(c.lots, sys, y.m, ok);
  }

  lemma FailedIsInFlight(s: Sys, ok: bool)
    ensures SubmitFails(s, ok) ==> Orders.Reconcile(s, ok).d.inFlight.Some?
  {
  }

  lemma ClosedTogether(x: Planned, c: Slot, p: W.Params, s: Sys, id: int)
    requires W.ValidParams(p) && Matches(c, p) && Together(x, c, p) && s.m == x.m
    ensures Together(x.(m := ClosedByBroker(s, id).m), c, p)
  {
  }

  lemma FillTogether(x: Planned, c: Slot, p: W.Params, s: Sys, ok: bool)
    requires W.ValidParams(p) && Matches(c, p) && Together(x, c, p) && s.m == x.m
    ensures Together(x.(m := OnFill(s, ok).m), c, p)
  {
    ReconcileWishes(s.(d := s.d.(exitCancels := 0)), ok);
  }

  lemma GuardTogether(x: Planned, c: Slot, p: W.Params, s: Sys, ok: bool)
    requires W.ValidParams(p) && Matches(c, p) && Together(x, c, p) && s.m == x.m
    ensures Together(x.(m := OnGuard(s, ok).m), c, p)
  {
    var s1 := if s.w.stopping then s.(m := Halted(s.m)) else s;
    ReconcileWishes(s1, ok);
  }

  lemma {:induction false} StillOpenStep(open: seq<int>, ids: seq<int>, i: nat, w: World)
    requires i < |ids|
    ensures open + StillOpen(ids[i..], w)
            == (if IsClosed(w, ids[i]) then open else open + [ids[i]]) + StillOpen(ids[i + 1..], w)
  {
    assert ids[i..][1..] == ids[i + 1..];
  }

  /** Reconciliation only ever changes the wish by halting it. */
  lemma ReconcileWishes(s: Sys, ok: bool)
    ensures Orders.Reconcile(s, ok).m == s.m || Orders.Reconcile(s, ok).m == Halted(s.m)
  {
  }

  /** So the plan survives reconciliation. */
  lemma PlanReconciles(x: Planned, c: Slot, p: W.Params, s: Sys, ok: bool)
    requires W.ValidParams(p) && Matches(c, p) && Together(x, c, p) && s.m == x.m
    ensures Together(x.(m := Orders.Reconcile(s, ok).m), c, p)
    ensures Aimable(c.lots, x.m)
  {
    ReconcileWishes(s, ok);
    TogetherTellsOneStory(x, c, p);
  }
}
