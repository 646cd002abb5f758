/** The order protocol of the model strategy (`apps/kite-node/src/native_node/model_strategy.rs`): one
    market order at a time moves the position toward a target, against a broker that may fill in
    parts, cancel, expire, reject, deny, never answer, or still fill what it has cancelled. */
module Orders {
  import opened Common

  /** An order unresolved for this long halts the strategy (ns). */
  const IN_FLIGHT_NS: int := 30_000_000_000
  const FLATTEN_FAST_ATTEMPTS: nat := 3
  const FLATTEN_RETRY_NS: int := 10_000_000_000
  const MAX_EXIT_CANCELS: nat := 5
  /** Largest quantity the order terms accept. */
  const MAX_QUANTITY: nat := 100

  /** A halted strategy tries three exits at once, then at most one every ten seconds. */
  predicate FlattenDue(attempts: nat, last: int, now: int) {
    attempts < FLATTEN_FAST_ATTEMPTS || now - last >= FLATTEN_RETRY_NS
  }

  datatype BrokerClosed = RetryExit | AbandonTrade | HaltNow

  /** What a cancelled or expired order means; `reduceOnly` is None for an unknown order. */
  function OnBrokerClosed(reduceOnly: Option<bool>, exitCancels: nat): BrokerClosed {
    if reduceOnly == Some(true) then
      if exitCancels < MAX_EXIT_CANCELS then RetryExit else HaltNow
    else AbandonTrade
  }

  /** An order's signed lots (buys positive) and whether it is reduce-only. */
  datatype Ticket = Ticket(signed: int, reduce: bool)

  /** `lots` on the side that closes `pos`. */
  function Toward(pos: int, lots: int): int {
    if pos > 0 then -lots else lots
  }

  /** The single next order moving `pos` toward `target`. */
  function NextOrder(pos: int, target: int): (r: Option<Ticket>)
    ensures r.Some? ==> r.value.signed != 0 && pos + r.value.signed == target
    ensures r.Some? && pos != 0 ==> Sign(r.value.signed) == -Sign(pos)
    ensures r.Some? ==> (r.value.reduce <==> pos != 0 && Abs(target) < Abs(pos) && Sign(target) != -Sign(pos))
    ensures r.None? <==> pos == target || (pos != 0 && Sign(target) == Sign(pos) && Abs(target) > Abs(pos))
  {
    if pos == target then None
    else if pos == 0 then Some(Ticket(target, false))
    else if target == 0 || (Sign(target) == Sign(pos) && Abs(target) < Abs(pos))
    then Some(Ticket(Toward(pos, Abs(pos - target)), true))
    else if Sign(target) == -Sign(pos)
    then Some(Ticket(Toward(pos, Abs(pos) + Abs(target)), false))
    else None
  }

  // -------------------------------------------------------------------- the state

  /** What the model wants: signed lots, whether this run opened the trade, whether it is halted. */
  datatype Aim = Aim(target: int, ours: bool, halted: bool)

  /** The strategy's order bookkeeping; `inFlight` is an order id and when it was sent. */
  datatype Desk = Desk(
    inFlight: Option<(int, int)>, timedOut: seq<int>, attempts: nat, lastFlatten: int, exitCancels: nat)

  /** An order as the cache shows it. One that was ever cancelled can still fill, and a part fill opens
      it again. */
  datatype Order = Order(ticket: Ticket, filled: nat, closed: bool, cancelled: bool)

  /** Signed lots an order may still fill. */
  function Rest(o: Order): int {
    if o.ticket.signed > 0 then o.ticket.signed - o.filled else o.ticket.signed + o.filled
  }

  /** An order as it was sent: with the position, in which state, at what time. */
  datatype Sent = Sent(ticket: Ticket, pos: int, halted: bool, calm: bool, at: int)

  /** The cache of orders and position, the clock, the stop flag, the flat flag the runner reads, and
      the history: orders sent, orders given up as unresolved, and fills of cancelled orders. */
  datatype World = World(
    orders: map<int, Order>, nextId: int, pos: int, now: int, stopping: bool, flat: bool,
    sent: seq<Sent>, timeouts: nat, lateFills: nat)

  datatype Sys = Sys(m: Aim, d: Desk, w: World)

  function Halted(m: Aim): Aim {
    Aim(0, false, true)
  }

  /** No order was given up as unresolved and none filled after it was cancelled. */
  predicate Calm(w: World) {
    w.timeouts == 0 && w.lateFills == 0
  }

  predicate IsClosed(w: World, id: int) {
    id in w.orders && w.orders[id].closed
  }

  predicate IsWorking(w: World, id: int) {
    id in w.orders && !w.orders[id].closed
  }

  /** Timed-out orders the cache does not show as closed. */
  function StillOpen(ids: seq<int>, w: World): (r: seq<int>)
    ensures forall id :: id in r <==> id in ids && !IsClosed(w, id)
  {
    if |ids| == 0 then []
    else (if IsClosed(w, ids[0]) then [] else [ids[0]]) + StillOpen(ids[1..], w)
  }

  function SetFlat(w: World, flat: bool): World {
    w.(flat := flat)
  }

  /** What reconciliation aims for. */
  function Effective(m: Aim, w: World): int {
    if m.halted || w.stopping then 0 else m.target
  }

  /** Sends `t`; `ok` is false when the submission itself fails and no order comes to exist. */
  function Send(s: Sys, t: Ticket, ok: bool): Sys {
    var id := s.w.nextId;
    var orders := if ok then s.w.orders[id := Order(t, 0, false, false)] else s.w.orders;
    Sys(s.m,
        s.d.(inFlight := Some((id, s.w.now)),
             attempts := if s.m.halted then s.d.attempts + 1 else s.d.attempts,
             lastFlatten := if s.m.halted then s.w.now else s.d.lastFlatten),
        s.w.(orders := orders, nextId := id + 1, flat := false,
             sent := s.w.sent + [Sent(t, s.w.pos, s.m.halted, Calm(s.w), s.w.now)]))
  }

  /** Reconciliation once no order is in flight. */
  function Move(s: Sys, ok: bool): Sys {
    var target := Effective(s.m, s.w);
    if s.w.pos == target then s.(w := SetFlat(s.w, s.w.pos == 0 && s.d.timedOut == []))
    else if s.m.halted && !FlattenDue(s.d.attempts, s.d.lastFlatten, s.w.now) then s.(w := SetFlat(s.w, false))
    else
      var t := NextOrder(s.w.pos, target);
      if t.None? then s.(m := Halted(s.m)) else Send(s, t.value, ok)
  }

  function Cleared(s: Sys): Sys {
    s.(d := s.d.(inFlight := None, timedOut := StillOpen(s.d.timedOut, s.w)))
  }

  function TimedOut(s: Sys, id: int): Sys {
    Sys(Halted(s.m), s.d.(inFlight := None, timedOut := s.d.timedOut + [id]), s.w.(timeouts := s.w.timeouts + 1))
  }

  /** `reconcile`. */
  function Reconcile(s: Sys, ok: bool): Sys {
    if s.d.inFlight.Some? && !IsClosed(s.w, s.d.inFlight.value.0) then
      if s.w.now - s.d.inFlight.value.1 > IN_FLIGHT_NS then TimedOut(s, s.d.inFlight.value.0) else s
    else Move(Cleared(s), ok)
  }

  /** Whether `reconcile` fails: it sends an order and the submission fails. */
  predicate SubmitFails(s: Sys, ok: bool) {
    !ok && |Reconcile(s, ok).w.sent| > |s.w.sent|
  }

  /** The in-flight slot after order `id` ended. */
  function Landed(d: Desk, id: int): Desk {
    if d.inFlight.Some? && d.inFlight.value.0 == id then d.(inFlight := None) else d
  }

  // ----------------------------------------------------------------- what happens

  datatype Happening =
    | Aimed(target: int, ours: bool, ok: bool)
    | Filled(id: int, lots: nat, ok: bool)
    | Cancelled(id: int)
    | Refused(id: int)
    | Guard(ok: bool)
    | StopAsked
    | Later(now: int)

  /** The cache after order `id` ended; an order it does not know changes nothing. */
  function Ended(w: World, id: int, cancelled: bool): World {
    if id !in w.orders then w
    else w.(orders := w.orders[id := w.orders[id].(closed := true, cancelled := w.orders[id].cancelled || cancelled)])
  }

  /** The cache after `lots` of order `id` filled: closed when nothing is left of it, open otherwise. */
  function AfterFill(w: World, id: int, lots: nat): World
    requires id in w.orders
  {
    var o := w.orders[id];
    var filled := o.filled + lots;
    w.(orders := w.orders[id := Order(o.ticket, filled, filled == Abs(o.ticket.signed), o.cancelled)],
       pos := w.pos + Toward(-o.ticket.signed, lots),
       lateFills := if o.cancelled then w.lateFills + 1 else w.lateFills)
  }

  /** What the broker and the market may do: an order the broker still works may fill, be cancelled or be
      refused, one that was cancelled may fill all the same, and one the cache does not know may end. */
  predicate Possible(lots: nat, s: Sys, h: Happening) {
    match h
    case Aimed(target, ours, _) => Abs(target) <= lots && (s.m.halted ==> target == 0 && !ours)
    case Filled(id, n, _) =>
      && id in s.w.orders && (!s.w.orders[id].closed || s.w.orders[id].cancelled)
      && 1 <= n <= Abs(Rest(s.w.orders[id]))
    case Cancelled(id) => id in s.w.orders ==> !s.w.orders[id].closed
    case Refused(id) => id in s.w.orders ==> !s.w.orders[id].closed
    case Later(now) => now >= s.w.now
    case _ => true
  }

  /** The order handlers, the guard tick and a new target followed by reconciliation. */
  function Next(s: Sys, h: Happening): Sys
    requires h.Filled? ==> h.id in s.w.orders
  {
    match h
    case Aimed(target, ours, ok) => Reconcile(s.(m := Aim(target, ours, s.m.halted)), ok)
    case Filled(id, n, ok) => OnFill(s.(w := AfterFill(s.w, id, n)), ok)
    case Cancelled(id) => ClosedByBroker(s.(w := Ended(s.w, id, true)), id)
    case Refused(id) => OnRefused(s.(w := Ended(s.w, id, false)), id)
    case Guard(ok) => OnGuard(s, ok)
    case StopAsked => s.(w := s.w.(stopping := true))
    case Later(now) => s.(w := s.w.(now := now))
  }

  /** `on_order_filled`, once the cache has the fill. */
  function OnFill(s: Sys, ok: bool): Sys {
    var s1 := s.(d := s.d.(exitCancels := 0));
    var s2 := Reconcile(s1, ok);
    if SubmitFails(s1, ok) then s2.(m := Halted(s2.m)) else s2
  }

  /** `on_order_rejected` and `on_order_denied`, once the cache has the order closed. */
  function OnRefused(s: Sys, id: int): Sys {
    Sys(Halted(s.m), Landed(s.d, id), s.w)
  }

  /** The guard tick (`on_time_event`). */
  function OnGuard(s: Sys, ok: bool): Sys {
    var s2 := Reconcile(if s.w.stopping then s.(m := Halted(s.m)) else s, ok);
    if s2.d.inFlight.None? then s2.(w := SetFlat(s2.w, s2.w.pos == 0 && s2.d.timedOut == [])) else s2
  }

  /** `closed_by_broker`. */
  function ClosedByBroker(s: Sys, id: int): Sys {
    var d := Landed(s.d, id);
    var reduceOnly := if id in s.w.orders then Some(s.w.orders[id].ticket.reduce) else None;
    match OnBrokerClosed(reduceOnly, s.d.exitCancels)
    case RetryExit => Sys(s.m, d.(exitCancels := d.exitCancels + 1), s.w)
    case AbandonTrade => Sys(Aim(0, false, s.m.halted), d, s.w)
    case HaltNow => Sys(Halted(s.m), d, s.w)
  }

  function Initial(now: int): Sys {
    Sys(Aim(0, false, false), Desk(None, [], 0, 0, 0), World(map[], 0, 0, now, false, true, [], 0, 0))
  }

  // ------------------------------------------------------------------- invariants

  predicate Tracked(d: Desk, id: int) {
    (d.inFlight.Some? && d.inFlight.value.0 == id) || id in d.timedOut
  }

  /** An order of the cache: well-formed, and if the broker still works it and never cancelled it, the
      strategy knows and has not reported itself flat. A cancelled order is only open after a late fill. */
  ghost predicate OrderOk(d: Desk, w: World, id: int)
    requires id in w.orders
  {
    var o := w.orders[id];
    && id < w.nextId && o.ticket.signed != 0 && o.filled <= Abs(o.ticket.signed)
    && (o.filled == Abs(o.ticket.signed) ==> o.closed)
    && (!o.closed && !o.cancelled ==> Tracked(d, id) && !w.flat)
    && (w.lateFills == 0 && o.cancelled ==> o.closed)
  }

  ghost predicate Book(d: Desk, w: World) {
    forall id :: id in w.orders ==> OrderOk(d, w, id)
  }

  /** An order in flight takes the position at most to `lots` on either side. */
  ghost predicate Contained(lots: nat, d: Desk, w: World) {
    && d.timedOut == [] && Abs(w.pos) <= lots
    && (d.inFlight.Some? && d.inFlight.value.0 in w.orders && !w.orders[d.inFlight.value.0].closed ==>
          Abs(w.pos + Rest(w.orders[d.inFlight.value.0])) <= lots)
  }

  /** What every order is allowed to be when it is sent. */
  ghost predicate SentOk(lots: nat, x: Sent) {
    && x.ticket.signed != 0
    && (x.pos != 0 ==> Sign(x.ticket.signed) == -Sign(x.pos))
    && (x.ticket.reduce ==> x.pos != 0 && Abs(x.ticket.signed) <= Abs(x.pos))
    && (x.halted ==> x.ticket == Ticket(-x.pos, true))
    && (x.calm ==> Abs(x.pos) <= lots && Abs(x.ticket.signed) <= 2 * lots)
  }

  ghost predicate History(lots: nat, w: World) {
    forall i :: 0 <= i < |w.sent| ==> SentOk(lots, w.sent[i])
  }

  ghost predicate Aimable(lots: nat, m: Aim) {
    Abs(m.target) <= lots && (m.halted ==> m.target == 0 && !m.ours)
  }

  /** What holds even while a handler is at work, after its fill or its new target is in and before it
      has reconciled. */
  ghost predicate Core(lots: nat, s: Sys) {
    && Aimable(lots, s.m)
    && Book(s.d, s.w)
    && (s.w.flat ==> s.d.inFlight.None? && s.d.timedOut == [] && (s.w.pos == 0 || Effective(s.m, s.w) == 0))
    && (Calm(s.w) ==> Contained(lots, s.d, s.w))
    && History(lots, s.w)
    && s.d.exitCancels <= MAX_EXIT_CANCELS
    && (s.d.inFlight.Some? ==> s.d.inFlight.value.0 < s.w.nextId)
  }

  /** What holds between handlers: "flat" is true and wanted. */
  ghost predicate Inv(lots: nat, s: Sys) {
    Core(lots, s) && (s.w.flat ==> s.w.pos == 0 && Effective(s.m, s.w) == 0)
  }

  /** Sending an order nobody else is in flight with. */
  lemma SendKeeps(lots: nat, s: Sys, t: Ticket, ok: bool)
    requires Core(lots, s) && s.d.inFlight.None?
    requires NextOrder(s.w.pos, Effective(s.m, s.w)) == Some(t)
    ensures Inv(lots, Send(s, t, ok))
  {
    var s2 := Send(s, t, ok);
    var x := Last(s2.w.sent);
    assert SentOk(lots, x) by {
      assert Abs(Effective(s.m, s.w)) <= lots;
    }
    forall id | id in s2.w.orders
      ensures OrderOk(s2.d, s2.w, id)
    {
      assert id in s.w.orders ==> OrderOk(s.d, s.w, id);
    }
  }

  lemma MoveKeeps(lots: nat, s: Sys, ok: bool)
    requires Core(lots, s) && s.d.inFlight.None?
    ensures Inv(lots, Move(s, ok))
  {
    var target := Effective(s.m, s.w);
    var s2 := Move(s, ok);
    if s.w.pos == target || (s.m.halted && !FlattenDue(s.d.attempts, s.d.lastFlatten, s.w.now)) {
      forall id | id in s2.w.orders
        ensures OrderOk(s2.d, s2.w, id)
      {
        assert OrderOk(s.d, s.w, id);
      }
    } else if NextOrder(s.w.pos, target).Some? {
      SendKeeps(lots, s, NextOrder(s.w.pos, target).value, ok);
    }
  }

  lemma ClearedKeeps(lots: nat, s: Sys)
    requires Core(lots, s) && (s.d.inFlight.Some? ==> IsClosed(s.w, s.d.inFlight.value.0))
    ensures Core(lots, Cleared(s))
  {
    var s2 := Cleared(s);
    forall id | id in s2.w.orders
      ensures OrderOk(s2.d, s2.w, id)
    {
      assert OrderOk(s.d, s.w, id);
    }
  }

  lemma TimedOutKeeps(lots: nat, s: Sys)
    requires Core(lots, s) && s.d.inFlight.Some?
    ensures Inv(lots, TimedOut(s, s.d.inFlight.value.0))
  {
    var s2 := TimedOut(s, s.d.inFlight.value.0);
    forall id | id in s2.w.orders
      ensures OrderOk(s2.d, s2.w, id)
    {
      assert OrderOk(s.d, s.w, id);
    }
  }

  lemma ReconcileKeeps(lots: nat, s: Sys, ok: bool)
    requires Core(lots, s)
    ensures Inv(lots, Reconcile(s, ok))
    ensures var e := Reconcile(s, ok); e.d.inFlight.None? && e.w.pos == 0 ==> Effective(e.m, e.w) == 0
  {
    if s.d.inFlight.Some? && !IsClosed(s.w, s.d.inFlight.value.0) {
      if s.w.now - s.d.inFlight.value.1 > IN_FLIGHT_NS {
        TimedOutKeeps(lots, s);
      }
    } else {
      ClearedKeeps(lots, s);
      MoveKeeps(lots, Cleared(s), ok);
    }
  }

  /** A fill moves the position into the order's remaining quantity. */
  lemma FillKeeps(lots: nat, s: Sys, id: int, n: nat)
    requires Inv(lots, s) && Possible(lots, s, Filled(id, n, true))
    ensures Core(lots, s.(w := AfterFill(s.w, id, n)))
  {
    var s2 := s.(w := AfterFill(s.w, id, n));
    assert OrderOk(s.d, s.w, id);
    forall k | k in s2.w.orders
      ensures OrderOk(s2.d, s2.w, k)
    {
      assert k in s.w.orders && OrderOk(s.d, s.w, k);
    }
  }

  /** An order that ends unfilled or part-filled. */
  lemma CloseKeeps(lots: nat, s: Sys, id: int, cancelled: bool)
    requires Inv(lots, s)
    ensures Inv(lots, s.(w := Ended(s.w, id, cancelled))) && !IsWorking(Ended(s.w, id, cancelled), id)
  {
    var w2 := Ended(s.w, id, cancelled);
    forall k | k in w2.orders
      ensures OrderOk(s.d, w2, k)
    {
      assert k in s.w.orders && OrderOk(s.d, s.w, k);
    }
  }

  /** A new flat flag that tells the truth. */
  lemma FlatKeeps(lots: nat, s: Sys)
    requires Inv(lots, s) && s.d.inFlight.None? && (s.w.pos == 0 ==> Effective(s.m, s.w) == 0)
    ensures Inv(lots, s.(w := SetFlat(s.w, s.w.pos == 0 && s.d.timedOut == [])))
  {
    var s2 := s.(w := SetFlat(s.w, s.w.pos == 0 && s.d.timedOut == []));
    forall k | k in s2.w.orders
      ensures OrderOk(s2.d, s2.w, k)
    {
      assert OrderOk(s.d, s.w, k);
    }
  }

  /** New wishes, clock readings and a stop request touch no order. */
  lemma WishKeeps(lots: nat, s: Sys, m: Aim, w: World)
    requires Inv(lots, s) && Aimable(lots, m) && w == s.w.(now := w.now, stopping := w.stopping)
    ensures Core(lots, Sys(m, s.d, w))
    ensures Effective(m, w) == Effective(s.m, s.w) || Effective(m, w) == 0 ==> Inv(lots, Sys(m, s.d, w))
  {
    forall k | k in w.orders
      ensures OrderOk(s.d, w, k)
    {
      assert OrderOk(s.d, s.w, k);
    }
  }

  /** A closed order may leave the in-flight slot. */
  lemma LandedKeeps(lots: nat, s: Sys, id: int)
    requires Inv(lots, s) && !IsWorking(s.w, id)
    ensures Inv(lots, s.(d := Landed(s.d, id)))
  {
    forall k | k in s.w.orders
      ensures OrderOk(Landed(s.d, id), s.w, k)
    {
      assert OrderOk(s.d, s.w, k);
    }
  }

  lemma ClosedByBrokerKeeps(lots: nat, s: Sys, id: int)
    requires Inv(lots, s) && !IsWorking(s.w, id)
    ensures Inv(lots, ClosedByBroker(s, id))
  {
    LandedKeeps(lots, s, id);
    var s2 := ClosedByBroker(s, id);
    forall k | k in s2.w.orders
      ensures OrderOk(s2.d, s2.w, k)
    {
      assert OrderOk(Landed(s.d, id), s.w, k);
    }
  }

  lemma OnFillKeeps(lots: nat, s: Sys, ok: bool)
    requires Core(lots, s)
    ensures Inv(lots, OnFill(s, ok))
  {
    var s1 := s.(d := s.d.(exitCancels := 0));
    forall k | k in s1.w.orders
      ensures OrderOk(s1.d, s1.w, k)
    {
      assert OrderOk(s.d, s.w, k);
    }
    ReconcileKeeps(lots, s1, ok);
    var s2 := Reconcile(s1, ok);
    WishKeeps(lots, s2, Halted(s2.m), s2.w);
  }

  lemma OnRefusedKeeps(lots: nat, s: Sys, id: int)
    requires Inv(lots, s) && !IsWorking(s.w, id)
    ensures Inv(lots, OnRefused(s, id))
  {
    LandedKeeps(lots, s, id);
    WishKeeps(lots, s.(d := Landed(s.d, id)), Halted(s.m), s.w);
  }

  lemma OnGuardKeeps(lots: nat, s: Sys, ok: bool)
    requires Inv(lots, s)
    ensures Inv(lots, OnGuard(s, ok))
  {
    var s1 := if s.w.stopping then s.(m := Halted(s.m)) else s;
    WishKeeps(lots, s, s1.m, s.w);
    ReconcileKeeps(lots, s1, ok);
    var s2 := Reconcile(s1, ok);
    if s2.d.inFlight.None? {
      FlatKeeps(lots, s2);
    }
  }

  lemma AimedKeeps(lots: nat, s: Sys, m: Aim, ok: bool)
    requires Inv(lots, s) && Aimable(lots, m)
    ensures Inv(lots, Reconcile(s.(m := m), ok))
  {
    WishKeeps(lots, s, m, s.w);
    ReconcileKeeps(lots, s.(m := m), ok);
  }

  /** Every step keeps the invariant. */
  lemma NextKeeps(lots: nat, s: Sys, h: Happening)
    requires Inv(lots, s) && Possible(lots, s, h)
    ensures Inv(lots, Next(s, h))
  {
    match h
    case Aimed(target, ours, ok) => AimedKeeps(lots, s, Aim(target, ours, s.m.halted), ok);
    case Filled(id, n, ok) =>
      FillKeeps(lots, s, id, n);
      OnFillKeeps(lots, s.(w := AfterFill(s.w, id, n)), ok);
    case Cancelled(id) =>
      CloseKeeps(lots, s, id, true);
      ClosedByBrokerKeeps(lots, s.(w := Ended(s.w, id, true)), id);
    case Refused(id) =>
      CloseKeeps(lots, s, id, false);
      OnRefusedKeeps(lots, s.(w := Ended(s.w, id, false)), id);
    case Guard(ok) => OnGuardKeeps(lots, s, ok);
    case StopAsked => WishKeeps(lots, s, s.m, s.w.(stopping := true));
    case Later(now) => WishKeeps(lots, s, s.m, s.w.(now := now));
  }

  /** A run of the protocol: every step was possible when it happened. */
  predicate Reaches(lots: nat, s: Sys, hs: seq<Happening>, e: Sys)
    decreases |hs|
  {
    if |hs| == 0 then s == e
    else Possible(lots, s, hs[0]) && Reaches(lots, Next(s, hs[0]), hs[1..], e)
  }

  lemma {:induction false} RunKeeps(lots: nat, s: Sys, hs: seq<Happening>, e: Sys)
    requires Inv(lots, s) && Reaches(lots, s, hs, e)
    ensures Inv(lots, e)
    decreases |hs|
  {
    if |hs| > 0 {
      NextKeeps(lots, s, hs[0]);
      RunKeeps(lots, Next(s, hs[0]), hs[1..], e);
    }
  }

  /** Order safety over every run, whatever the broker does: an order the broker still works and never
      cancelled is the one in flight or a known timed-out one; "flat" is only reported with position 0, no
      such order and nothing wanted; as long as no order times out and no cancelled order fills, the
      position, and the position with everything still unfilled, stay within the lots and cancelled orders
      stay closed; exits are never cancelled more often than allowed without a halt. */
  lemma {:induction false} OrderSafety(lots: nat, now: int, hs: seq<Happening>, e: Sys)
    requires Reaches(lots, Initial(now), hs, e)
    ensures forall id :: id in e.w.orders && !e.w.orders[id].closed && !e.w.orders[id].cancelled ==> Tracked(e.d, id)
    ensures e.w.flat ==> e.w.pos == 0 && Effective(e.m, e.w) == 0 && e.d.inFlight.None? && e.d.timedOut == []
    ensures e.w.flat ==> forall id :: id in e.w.orders ==> e.w.orders[id].closed || e.w.orders[id].cancelled
    ensures e.w.lateFills == 0 ==> forall id :: id in e.w.orders && e.w.orders[id].cancelled ==> e.w.orders[id].closed
    ensures Calm(e.w) ==> Contained(lots, e.d, e.w)
    ensures Abs(e.m.target) <= lots && e.d.exitCancels <= MAX_EXIT_CANCELS
  {
    RunKeeps(lots, Initial(now), hs, e);
    forall id | id in e.w.orders
      ensures !e.w.orders[id].closed && !e.w.orders[id].cancelled ==> Tracked(e.d, id) && !e.w.flat
      ensures e.w.lateFills == 0 && e.w.orders[id].cancelled ==> e.w.orders[id].closed
    {
      assert OrderOk(e.d, e.w, id);
    }
  }

  /** The adapter's reduce-only check (`native.rs`): opposing side, not more than the position. */
  predicate ReduceOnlyAccepted(t: Ticket, pos: int) {
    t.reduce ==> Sign(t.signed) == -Sign(pos) && pos != 0 && Abs(t.signed) <= Abs(pos)
  }

  /** Every order of every run closes position or opens from flat or flips, never adds; passes the
      reduce-only check; after a halt is a reduce-only exit of exactly the position; and until an order
      times out or fills after its cancel is of at most twice the lots. */
  lemma {:induction false} OrdersAreOrderly(lots: nat, now: int, hs: seq<Happening>, e: Sys, i: nat)
    requires Reaches(lots, Initial(now), hs, e) && i < |e.w.sent|
    ensures var x := e.w.sent[i];
            && (x.pos != 0 ==> Sign(x.ticket.signed) == -Sign(x.pos))
            && ReduceOnlyAccepted(x.ticket, x.pos)
            && (x.halted ==> x.ticket == Ticket(-x.pos, true))
            && (x.calm ==> 1 <= Abs(x.ticket.signed) <= 2 * lots)
  {
    RunKeeps(lots, Initial(now), hs, e);
    assert SentOk(lots, e.w.sent[i]);
  }

  // -------------------------------------------------------- what the limits allow

  /** The run that enters with all lots and then flips. */
  function FlipRun(lots: nat): seq<Happening> {
    [Aimed(lots, true, true), Filled(0, lots, true), Aimed(0 - lots, true, true)]
  }

  /** Every order of the run sent before a time-out and before a late fill is within the order terms. */
  ghost predicate QuantitiesFit(e: Sys) {
    forall i :: 0 <= i < |e.w.sent| ==> e.w.sent[i].calm ==> 1 <= Abs(e.w.sent[i].ticket.signed) <= MAX_QUANTITY
  }

  ghost predicate AllQuantitiesFit(lots: nat) {
    forall now, hs, e :: Reaches(lots, Initial(now), hs, e) ==> QuantitiesFit(e)
  }

  /** Order terms accept 1..=100 lots. All orders of all runs fit them (until a time-out or a late fill) exactly when
      the configured lots are at most 50; the configuration allows up to 100. */
  lemma QuantityFitsIffFiftyLots(lots: nat)
    requires lots >= 1
    ensures lots <= 50 <==> AllQuantitiesFit(lots)
  {
    if lots <= 50 {
      forall now, hs, e | Reaches(lots, Initial(now), hs, e)
        ensures QuantitiesFit(e)
      {
        forall i | 0 <= i < |e.w.sent|
          ensures e.w.sent[i].calm ==> 1 <= Abs(e.w.sent[i].ticket.signed) <= MAX_QUANTITY
        {
          OrdersAreOrderly(lots, now, hs, e, i);
        }
      }
    } else {
      var e := FlipRunEnds(lots);
      assert !QuantitiesFit(e) by {
        assert e.w.sent[1].calm;
      }
      assert AllQuantitiesFit(lots) ==> QuantitiesFit(e);
    }
  }

  lemma FlipRunEnds(lots: nat) returns (e: Sys)
    requires lots >= 1
    ensures Reaches(lots, Initial(0), FlipRun(lots), e) && Flipping(lots, e)
    ensures |e.w.sent| == 2 && e.w.sent[1] == Sent(Ticket(-2 * lots, false), lots, false, true, 0)
  {
    var hs := FlipRun(lots);
    var s0 := Initial(0);
    var s1 := Next(s0, hs[0]);
    assert s1.w.orders == map[0 := Order(Ticket(lots, false), 0, false, false)];
    var s2 := Next(s1, hs[1]);
    assert s2.w.pos == lots && s2.d.inFlight.None? && Calm(s2.w);
    e := Next(s2, hs[2]);
    assert hs[1..][1..] == [hs[2]];
    assert hs[1..][0] == hs[1];
    assert Reaches(lots, s2, [hs[2]], e);
  }

  // --------------------------------------------------------- a halted run unwinds

  /** If the order that ends is the one in flight, at least a lot of it filled. */
  predicate EndsFilled(s: Sys, id: int) {
    s.d.inFlight.Some? && s.d.inFlight.value.0 == id && id in s.w.orders ==> s.w.orders[id].filled >= 1
  }

  /** Steps of a halted run in which no order is given up as unresolved, submissions succeed, only the
      order in flight fills, and it ends only with at least one lot filled. */
  ghost predicate Unwinding(lots: nat, s: Sys, h: Happening) {
    && Possible(lots, s, h)
    && Next(s, h).w.timeouts == s.w.timeouts
    && (h.Aimed? ==> h.ok) && (h.Guard? ==> h.ok)
    && (h.Filled? ==> h.ok && Working(s).Some? && s.d.inFlight.value.0 == h.id)
    && (h.Cancelled? || h.Refused? ==> EndsFilled(s, h.id))
  }

  ghost predicate Unwinds(lots: nat, s: Sys, hs: seq<Happening>, e: Sys)
    decreases |hs|
  {
    if |hs| == 0 then s == e
    else Unwinding(lots, s, hs[0]) && Unwinds(lots, Next(s, hs[0]), hs[1..], e)
  }

  /** The order in flight that the broker still works, if any. */
  function Working(s: Sys): Option<Order> {
    if s.d.inFlight.Some? && s.d.inFlight.value.0 in s.w.orders && !s.w.orders[s.d.inFlight.value.0].closed
    then Some(s.w.orders[s.d.inFlight.value.0]) else None
  }

  /** `n` orders into unwinding `p0` lots: each finished order took at least a lot off, and the one
      working is for exactly what is left. */
  ghost predicate Progress(p0: int, n: int, s: Sys) {
    && s.m.halted
    && (if p0 >= 0 then 0 <= s.w.pos <= p0 else p0 <= s.w.pos <= 0)
    && (match Working(s)
        case None => n + Abs(s.w.pos) <= Abs(p0)
        case Some(o) => s.w.pos + Rest(o) == 0 && n + Abs(s.w.pos) <= Abs(p0) + (if o.filled == 0 then 1 else 0))
  }

  lemma ReconcileUnwinds(lots: nat, p0: int, n: int, s: Sys)
    requires Core(lots, s) && Progress(p0, n, s) && Reconcile(s, true).w.timeouts == s.w.timeouts
    ensures var e := Reconcile(s, true);
            Progress(p0, n + |e.w.sent| - |s.w.sent|, e)
  {
    if !(s.d.inFlight.Some? && !IsClosed(s.w, s.d.inFlight.value.0)) {
      var c := Cleared(s);
      assert Working(c).None? && Working(s).None?;
      var t := NextOrder(c.w.pos, 0);
    }
  }

  lemma AimUnwinds(lots: nat, p0: int, n: int, s: Sys, h: Happening)
    requires Inv(lots, s) && Progress(p0, n, s) && Unwinding(lots, s, h) && h.Aimed?
    ensures Progress(p0, n + |Next(s, h).w.sent| - |s.w.sent|, Next(s, h))
  {
    WishKeeps(lots, s, Aim(h.target, h.ours, true), s.w);
    ReconcileUnwinds(lots, p0, n, s.(m := Aim(h.target, h.ours, true)));
  }

  lemma FilledUnwinds(lots: nat, p0: int, n: int, s: Sys, h: Happening)
    requires Inv(lots, s) && Progress(p0, n, s) && Unwinding(lots, s, h) && h.Filled?
    ensures Progress(p0, n + |Next(s, h).w.sent| - |s.w.sent|, Next(s, h))
  {
    var s1 := s.(d := s.d.(exitCancels := 0), w := AfterFill(s.w, h.id, h.lots));
    FillKeeps(lots, s, h.id, h.lots);
    FillUnwinds(lots, p0, n, s, h.id, h.lots);
    ReconcileUnwinds(lots, p0, n, s1);
  }

  lemma GuardUnwinds(lots: nat, p0: int, n: int, s: Sys, h: Happening)
    requires Inv(lots, s) && Progress(p0, n, s) && Unwinding(lots, s, h) && h.Guard?
    ensures Progress(p0, n + |Next(s, h).w.sent| - |s.w.sent|, Next(s, h))
  {
    var s1 := if s.w.stopping then s.(m := Halted(s.m)) else s;
    WishKeeps(lots, s, s1.m, s.w);
    ReconcileUnwinds(lots, p0, n, s1);
  }

  lemma NextUnwinds(lots: nat, p0: int, n: int, s: Sys, h: Happening)
    requires Inv(lots, s) && Progress(p0, n, s) && Unwinding(lots, s, h)
    ensures Progress(p0, n + |Next(s, h).w.sent| - |s.w.sent|, Next(s, h))
  {
    match h
    case Aimed(_, _, _) => AimUnwinds(lots, p0, n, s, h);
    case Filled(_, _, _) => FilledUnwinds(lots, p0, n, s, h);
    case Guard(_) => GuardUnwinds(lots, p0, n, s, h);
    case _ =>
  }

  lemma FillUnwinds(lots: nat, p0: int, n: int, s: Sys, id: int, k: nat)
    requires Inv(lots, s) && Progress(p0, n, s) && Possible(lots, s, Filled(id, k, true))
    requires Working(s).Some? && s.d.inFlight.value.0 == id
    ensures Progress(p0, n, s.(d := s.d.(exitCancels := 0), w := AfterFill(s.w, id, k)))
    ensures Core(lots, s.(d := s.d.(exitCancels := 0), w := AfterFill(s.w, id, k)))
  {
    assert OrderOk(s.d, s.w, id);
    FillKeeps(lots, s, id, k);
    var s1 := s.(d := s.d.(exitCancels := 0), w := AfterFill(s.w, id, k));
    forall j | j in s1.w.orders
      ensures OrderOk(s1.d, s1.w, j)
    {
      assert OrderOk(s.d, s1.w, j);
    }
  }

  lemma {:induction false} UnwindsProgress(lots: nat, p0: int, n: int, s: Sys, hs: seq<Happening>, e: Sys)
    requires Inv(lots, s) && Progress(p0, n, s) && Unwinds(lots, s, hs, e)
    ensures Progress(p0, n + |e.w.sent| - |s.w.sent|, e)
    decreases |hs|
  {
    if |hs| > 0 {
      NextUnwinds(lots, p0, n, s, hs[0]);
      NextKeeps(lots, s, hs[0]);
      UnwindsProgress(lots, p0, n + |Next(s, hs[0]).w.sent| - |s.w.sent|, Next(s, hs[0]), hs[1..], e);
    }
  }

  /** A halted run only unwinds: from a halt with nothing in flight it never changes sides or grows the
      position, and if every flatten order ends with at least one lot filled it needs no more orders than
      it had lots. */
  lemma {:induction false} HaltedRunUnwinds(
      lots: nat, now: int, before: seq<Happening>, s: Sys, hs: seq<Happening>, e: Sys)
    requires Reaches(lots, Initial(now), before, s) && s.m.halted && Working(s).None?
    requires Unwinds(lots, s, hs, e)
    ensures e.m.halted && e.m.target == 0
    ensures if s.w.pos >= 0 then 0 <= e.w.pos <= s.w.pos else s.w.pos <= e.w.pos <= 0
    ensures |e.w.sent| - |s.w.sent| <= Abs(s.w.pos)
    ensures |e.w.sent| - |s.w.sent| == Abs(s.w.pos) && Working(e).None? ==> e.w.pos == 0
  {
    RunKeeps(lots, Initial(now), before, s);
    UnwindsProgress(lots, s.w.pos, 0, s, hs, e);
    UnwindsKeeps(lots, s, hs, e);
    if Working(e).Some? {
      assert OrderOk(e.d, e.w, e.d.inFlight.value.0);
    }
  }

  lemma {:induction false} UnwindsKeeps(lots: nat, s: Sys, hs: seq<Happening>, e: Sys)
    requires Inv(lots, s) && Unwinds(lots, s, hs, e)
    ensures Inv(lots, e)
    decreases |hs|
  {
    if |hs| > 0 {
      NextKeeps(lots, s, hs[0]);
      UnwindsKeeps(lots, Next(s, hs[0]), hs[1..], e);
    }
  }

  /** A cancelled order leaves the in-flight slot and never comes back to it. */
  ghost predicate Landing(s: Sys) {
    s.d.inFlight.Some? && s.d.inFlight.value.0 in s.w.orders ==> !s.w.orders[s.d.inFlight.value.0].cancelled
  }

  lemma ReconcileLands(s: Sys, ok: bool)
    requires Book(s.d, s.w) && Landing(s)
    ensures Landing(Reconcile(s, ok))
  {
    assert s.w.nextId in s.w.orders ==> OrderOk(s.d, s.w, s.w.nextId);
  }

  lemma NextLands(lots: nat, s: Sys, h: Happening)
    requires Inv(lots, s) && Possible(lots, s, h) && Landing(s)
    ensures Landing(Next(s, h))
  {
    match h
    case Aimed(target, ours, ok) =>
      WishKeeps(lots, s, Aim(target, ours, s.m.halted), s.w);
      ReconcileLands(s.(m := Aim(target, ours, s.m.halted)), ok);
    case Filled(id, n, ok) =>
      FillKeeps(lots, s, id, n);
      var s1 := s.(d := s.d.(exitCancels := 0), w := AfterFill(s.w, id, n));
      forall j | j in s1.w.orders
        ensures OrderOk(s1.d, s1.w, j)
      {
        assert OrderOk(s.d, s1.w, j);
      }
      ReconcileLands(s1, ok);
    case Guard(ok) =>
      var s1 := if s.w.stopping then s.(m := Halted(s.m)) else s;
      WishKeeps(lots, s, s1.m, s.w);
      ReconcileLands(s1, ok);
    case _ =>
  }

  lemma {:induction false} RunLands(lots: nat, s: Sys, hs: seq<Happening>, e: Sys)
    requires Inv(lots, s) && Landing(s) && Reaches(lots, s, hs, e)
    ensures Landing(e)
    decreases |hs|
  {
    if |hs| > 0 {
      NextLands(lots, s, hs[0]);
      NextKeeps(lots, s, hs[0]);
      RunLands(lots, Next(s, hs[0]), hs[1..], e);
    }
  }

  /** Halted with no order in flight; the last exit was sent at `last`. */
  ghost predicate Waiting(s: Sys, last: int) {
    s.m.halted && (s.d.inFlight.Some? ==> IsClosed(s.w, s.d.inFlight.value.0)) && s.d.lastFlatten == last
  }

  /** Nothing but an order sent ends the waiting. */
  lemma StepWaits(lots: nat, s: Sys, h: Happening, last: int)
    requires Inv(lots, s) && Landing(s) && Waiting(s, last) && Possible(lots, s, h)
    ensures |Next(s, h).w.sent| >= |s.w.sent|
    ensures |Next(s, h).w.sent| == |s.w.sent| ==> Waiting(Next(s, h), last)
  {
    match h
    case Aimed(target, ours, ok) => ReconcileWaits(s.(m := Aim(target, ours, true)), ok, last);
    case Filled(id, n, ok) => ReconcileWaits(s.(d := s.d.(exitCancels := 0), w := AfterFill(s.w, id, n)), ok, last);
    case Guard(ok) => ReconcileWaits(if s.w.stopping then s.(m := Halted(s.m)) else s, ok, last);
    case _ =>
  }

  lemma ReconcileWaits(s: Sys, ok: bool, last: int)
    requires Waiting(s, last)
    ensures |Reconcile(s, ok).w.sent| >= |s.w.sent|
    ensures |Reconcile(s, ok).w.sent| == |s.w.sent| ==> Waiting(Reconcile(s, ok), last)
  {
  }

  lemma StepGrows(lots: nat, s: Sys, h: Happening)
    requires Possible(lots, s, h)
    ensures |Next(s, h).w.sent| >= |s.w.sent|
  {
    match h
    case Aimed(target, ours, ok) => ReconcileGrows(s.(m := Aim(target, ours, s.m.halted)), ok);
    case Filled(id, n, ok) => ReconcileGrows(s.(d := s.d.(exitCancels := 0), w := AfterFill(s.w, id, n)), ok);
    case Guard(ok) => ReconcileGrows(if s.w.stopping then s.(m := Halted(s.m)) else s, ok);
    case _ =>
  }

  lemma ReconcileGrows(s: Sys, ok: bool)
    ensures |Reconcile(s, ok).w.sent| >= |s.w.sent|
  {
  }

  lemma {:induction false} SentGrows(lots: nat, s: Sys, hs: seq<Happening>, e: Sys)
    requires Reaches(lots, s, hs, e)
    ensures |e.w.sent| >= |s.w.sent|
    decreases |hs|
  {
    if |hs| > 0 {
      StepGrows(lots, s, hs[0]);
      SentGrows(lots, Next(s, hs[0]), hs[1..], e);
    }
  }

  lemma {:induction false} RunWaits(lots: nat, s: Sys, hs: seq<Happening>, e: Sys, last: int)
    requires Inv(lots, s) && Landing(s) && Waiting(s, last) && Reaches(lots, s, hs, e) && |e.w.sent| == |s.w.sent|
    ensures Waiting(e, last)
    decreases |hs|
  {
    if |hs| > 0 {
      StepWaits(lots, s, hs[0], last);
      NextKeeps(lots, s, hs[0]);
      NextLands(lots, s, hs[0]);
      SentGrows(lots, Next(s, hs[0]), hs[1..], e);
      RunWaits(lots, Next(s, hs[0]), hs[1..], e, last);
    }
  }

  /** It never gives up: whatever happens after a halted run has nothing in flight, by the first guard
      tick ten seconds after its last exit it has sent another order, or the tick sends the exit of exactly
      the lots that are then open, or none are open. */
  lemma {:induction false} HaltedRunRetries(
      lots: nat, now: int, before: seq<Happening>, s: Sys, hs: seq<Happening>, e: Sys)
    requires Reaches(lots, Initial(now), before, s) && Waiting(s, s.d.lastFlatten)
    requires Reaches(lots, s, hs, e) && e.w.now >= s.d.lastFlatten + FLATTEN_RETRY_NS
    ensures || |e.w.sent| > |s.w.sent|
            || e.w.pos == 0
            || Next(e, Guard(true)).w.sent
               == e.w.sent + [Sent(Ticket(-e.w.pos, true), e.w.pos, true, Calm(e.w), e.w.now)]
  {
    RunKeeps(lots, Initial(now), before, s);
    RunLands(lots, Initial(now), before, s);
    SentGrows(lots, s, hs, e);
    if |e.w.sent| == |s.w.sent| {
      RunWaits(lots, s, hs, e, s.d.lastFlatten);
    }
  }

  // ------------------------------------------------------------------ orders arrive

  function TotalLots(ks: seq<nat>): nat {
    if |ks| == 0 then 0 else ks[0] + TotalLots(ks[1..])
  }

  /** The fills `ks` of order `id`, one after the other. */
  function FillAll(s: Sys, id: int, ks: seq<nat>): Sys
    requires id in s.w.orders
    decreases |ks|
  {
    if |ks| == 0 then s
    else
      FillKeepsOrder(s, id, ks[0]);
      FillAll(Next(s, Filled(id, ks[0], true)), id, ks[1..])
  }

  lemma FillKeepsOrder(s: Sys, id: int, n: nat)
    requires id in s.w.orders
    ensures id in Next(s, Filled(id, n, true)).w.orders
  {
  }

  /** Order `id` is all that is left to reach the target. */
  ghost predicate Moving(s: Sys, id: int) {
    && !s.m.halted && !s.w.stopping && s.d.timedOut == [] && s.d.inFlight == Some((id, s.w.now))
    && id in s.w.orders && !s.w.orders[id].closed && s.w.orders[id].filled < Abs(s.w.orders[id].ticket.signed)
    && s.w.pos + Rest(s.w.orders[id]) == s.m.target
  }

  /** On target with nothing open. */
  ghost predicate Arrived(s: Sys) {
    !s.m.halted && !s.w.stopping && s.w.pos == s.m.target && s.d.inFlight.None? && s.d.timedOut == []
  }

  lemma FillMoves(s: Sys, id: int, n: nat)
    requires Moving(s, id) && 1 <= n <= Abs(Rest(s.w.orders[id]))
    ensures var e := Next(s, Filled(id, n, true));
            && e.m == s.m && e.w.sent == s.w.sent
            && (if n < Abs(Rest(s.w.orders[id]))
                then Moving(e, id) && Abs(Rest(e.w.orders[id])) == Abs(Rest(s.w.orders[id])) - n
                else Arrived(e))
  {
  }

  lemma {:induction false} FillsArrive(s: Sys, id: int, ks: seq<nat>)
    requires Moving(s, id) && (forall i :: 0 <= i < |ks| ==> ks[i] >= 1) && TotalLots(ks) == Abs(Rest(s.w.orders[id]))
    ensures var e := FillAll(s, id, ks); Arrived(e) && e.m == s.m && e.w.sent == s.w.sent
    decreases |ks|
  {
    FillMoves(s, id, ks[0]);
    if |ks| > 1 {
      assert TotalLots(ks[1..]) >= ks[1];
      FillsArrive(Next(s, Filled(id, ks[0], true)), id, ks[1..]);
    } else {
      assert ks[1..] == [];
    }
  }

  /** The protocol arrives: in any reachable state without a halt, a stop or an open order, one
      reconciliation sends the order, any fills that complete it bring the position to the target, and
      the next guard tick sends nothing. */
  lemma {:induction false} OrderArrives(lots: nat, now: int, before: seq<Happening>, s: Sys, ks: seq<nat>)
    requires Reaches(lots, Initial(now), before, s) && !s.m.halted && !s.w.stopping
    requires (s.d.inFlight.Some? ==> IsClosed(s.w, s.d.inFlight.value.0)) && StillOpen(s.d.timedOut, s.w) == []
    requires NextOrder(s.w.pos, s.m.target).Some?
    requires forall i :: 0 <= i < |ks| ==> ks[i] >= 1
    requires TotalLots(ks) == Abs(s.m.target - s.w.pos)
    ensures var s1 := Reconcile(s, true);
            && s.w.nextId in s1.w.orders && |s1.w.sent| == |s.w.sent| + 1
            && var e := FillAll(s1, s.w.nextId, ks);
               e.w.pos == s.m.target && e.m == s.m && Next(e, Guard(true)).w.sent == e.w.sent == s1.w.sent
  {
    RunKeeps(lots, Initial(now), before, s);
    var s1 := Reconcile(s, true);
    assert s.w.nextId in s1.w.orders && Moving(s1, s.w.nextId);
    FillsArrive(s1, s.w.nextId, ks);
  }

  // ------------------------------------------------- why time-outs are excluded

  lemma {:induction false} ReachesJoin(lots: nat, s: Sys, a: seq<Happening>, mid: Sys, b: seq<Happening>, e: Sys)
    requires Reaches(lots, s, a, mid) && Reaches(lots, mid, b, e)
    ensures Reaches(lots, s, a + b, e)
    decreases |a|
  {
    if |a| == 0 {
      assert a + b == b;
    } else {
      assert (a + b)[1..] == a[1..] + b;
      ReachesJoin(lots, Next(s, a[0]), a[1..], mid, b, e);
    }
  }

  lemma {:induction false} ReachesThree(lots: nat, s: Sys, x: Happening, y: Happening, z: Happening)
    requires Possible(lots, s, x) && Possible(lots, Next(s, x), y) && Possible(lots, Next(Next(s, x), y), z)
    ensures Reaches(lots, s, [x, y, z], Next(Next(Next(s, x), y), z))
  {
    assert [x, y, z][1..] == [y, z] && [y, z][1..] == [z] && [z][1..] == [];
    assert Reaches(lots, Next(Next(s, x), y), [z], Next(Next(Next(s, x), y), z));
    assert Reaches(lots, Next(s, x), [y, z], Next(Next(Next(s, x), y), z));
  }

  /** A flip of all lots, order 1, is in flight. */
  ghost predicate Flipping(lots: nat, s: Sys) {
    && !s.m.halted && !s.w.stopping && s.w.pos == lots && s.w.nextId == 2 && Calm(s.w)
    && s.d.inFlight == Some((1, s.w.now)) && s.d.timedOut == [] && s.d.attempts == 0
    && 1 in s.w.orders && s.w.orders[1] == Order(Ticket(-2 * lots, false), 0, false, false)
  }

  /** The flip has been given up and the exit of all lots, order 2, is in flight; the broker may still
      fill both. */
  ghost predicate BothOpen(lots: nat, s: Sys) {
    && s.m.halted && s.w.pos == lots && s.w.timeouts == 1 && s.w.lateFills == 0 && s.d.inFlight == Some((2, s.w.now))
       && s.d.timedOut == [1]
    && 1 in s.w.orders && s.w.orders[1] == Order(Ticket(-2 * lots, false), 0, false, false)
    && 2 in s.w.orders && s.w.orders[2] == Order(Ticket(0 - lots, true), 0, false, false)
  }

  /** The guard tick after the time-out sends the exit. */
  lemma ExitSent(lots: nat, s: Sys)
    requires lots >= 1 && s.m.halted && s.d.inFlight.None? && s.d.timedOut == [1] && s.d.attempts == 0
    requires s.w.pos == lots && s.w.nextId == 2 && s.w.timeouts == 1 && s.w.lateFills == 0
    requires 1 in s.w.orders && s.w.orders[1] == Order(Ticket(-2 * lots, false), 0, false, false)
    ensures BothOpen(lots, Next(s, Guard(true)))
  {
    assert StillOpen([1], s.w) == [1] + StillOpen([], s.w);
  }

  lemma FlipTimesOut(lots: nat, s: Sys) returns (hs: seq<Happening>, e: Sys)
    requires lots >= 1 && Flipping(lots, s)
    ensures Reaches(lots, s, hs, e) && BothOpen(lots, e)
  {
    var x, g := Later(s.w.now + IN_FLIGHT_NS + 1), Guard(true);
    var s1 := Next(s, x);
    var s2 := Next(s1, g);
    assert s2.m == Halted(s1.m) && s2.d.inFlight.None? && s2.d.timedOut == [] + [1] == [1] && s2.d.attempts == 0;
    ExitSent(lots, s2);
    e := Next(s2, g);
    hs := [x, g, g];
    ReachesThree(lots, s, x, g, g);
  }

  lemma BothFill(lots: nat, s: Sys) returns (hs: seq<Happening>, e: Sys)
    requires lots >= 1 && BothOpen(lots, s)
    ensures Reaches(lots, s, hs, e) && e.w.timeouts == 1 && e.w.lateFills == 0 && e.w.pos == -2 * lots
  {
    var x, y, z := Filled(2, lots, true), Filled(1, 2 * lots, true), StopAsked;
    var s1 := Next(s, x);
    assert s1.w.pos == 0 && s1.d.inFlight.None? && s1.w.orders[1] == s.w.orders[1];
    var s2 := Next(s1, y);
    assert s2.w.pos == -2 * lots;
    e := Next(s2, z);
    hs := [x, y, z];
    ReachesThree(lots, s, x, y, z);
  }

  /** One unresolved order is enough: a flip that is given up after its time-out and fills after the exit
      that replaced it leaves the run short by twice its lots. */
  lemma UnresolvedOrderOvershoots(lots: nat) returns (hs: seq<Happening>, e: Sys)
    requires lots >= 1
    ensures Reaches(lots, Initial(0), hs, e) && e.w.timeouts == 1 && e.w.lateFills == 0 && e.w.pos == -2 * lots
  {
    var s1 := FlipRunEnds(lots);
    var h2, s2 := FlipTimesOut(lots, s1);
    var h3, s3 := BothFill(lots, s2);
    ReachesJoin(lots, s1, h2, s2, h3, s3);
    ReachesJoin(lots, Initial(0), FlipRun(lots), s1, h2 + h3, s3);
    hs, e := FlipRun(lots) + (h2 + h3), s3;
  }

  /** The flip, order 1, was cancelled unfilled; the exit of all lots, order 2, is in flight. */
  ghost predicate FlipCancelled(lots: nat, s: Sys) {
    && s.m == Aim(0, false, false) && !s.w.stopping && s.w.pos == lots && Calm(s.w)
       && s.d.inFlight == Some((2, s.w.now)) && s.d.timedOut == []
    && 1 in s.w.orders && s.w.orders[1] == Order(Ticket(-2 * lots, false), 0, true, true)
    && 2 in s.w.orders && s.w.orders[2] == Order(Ticket(0 - lots, true), 0, false, false)
  }

  lemma FlipIsCancelled(lots: nat, s: Sys) returns (hs: seq<Happening>, e: Sys)
    requires lots >= 1 && Flipping(lots, s)
    ensures Reaches(lots, s, hs, e) && FlipCancelled(lots, e)
  {
    var x, y, z := Cancelled(1), Guard(true), Later(s.w.now);
    var s1 := Next(s, x);
    assert s1.d.inFlight.None? && s1.w.pos == lots && s1.m == Aim(0, false, false);
    var s2 := Next(s1, y);
    e := Next(s2, z);
    hs := [x, y, z];
    ReachesThree(lots, s, x, y, z);
  }

  lemma CancelledFlipFills(lots: nat, s: Sys) returns (hs: seq<Happening>, e: Sys)
    requires lots >= 1 && FlipCancelled(lots, s)
    ensures Reaches(lots, s, hs, e) && e.w.timeouts == 0 && e.w.lateFills == 1 && e.w.pos == -2 * lots
  {
    var x, y, z := Filled(2, lots, true), Filled(1, 2 * lots, true), StopAsked;
    var s1 := Next(s, x);
    assert s1.w.pos == 0 && s1.d.inFlight.None? && s1.w.orders[1] == s.w.orders[1] && Calm(s1.w);
    var s2 := Next(s1, y);
    assert s2.w.pos == -2 * lots && s2.w.timeouts == 0 && s2.w.lateFills == 1;
    e := Next(s2, z);
    hs := [x, y, z];
    ReachesThree(lots, s, x, y, z);
  }

  /** One late fill is enough too: a flip that is cancelled, replaced by the exit and then still fills. */
  lemma LateFillOvershoots(lots: nat) returns (hs: seq<Happening>, e: Sys)
    requires lots >= 1
    ensures Reaches(lots, Initial(0), hs, e) && e.w.timeouts == 0 && e.w.lateFills == 1 && e.w.pos == -2 * lots
  {
    var s1 := FlipRunEnds(lots);
    var h2, s2 := FlipIsCancelled(lots, s1);
    var h3, s3 := CancelledFlipFills(lots, s2);
    ReachesJoin(lots, s1, h2, s2, h3, s3);
    ReachesJoin(lots, Initial(0), FlipRun(lots), s1, h2 + h3, s3);
    hs, e := FlipRun(lots) + (h2 + h3), s3;
  }

  /** No run with at most `k` time-outs and `j` late fills holds more than its lots. */
  ghost predicate BoundedUpTo(lots: nat, k: nat, j: nat) {
    forall now, hs, e :: Reaches(lots, Initial(now), hs, e) && e.w.timeouts <= k && e.w.lateFills <= j ==>
        Abs(e.w.pos) <= lots
  }

  /** The position bound holds exactly for the runs without a time-out and without a late fill. */
  lemma BoundHoldsIffCalm(lots: nat, k: nat, j: nat)
    requires lots >= 1
    ensures BoundedUpTo(lots, k, j) <==> k == 0 && j == 0
  {
    if k == 0 && j == 0 {
      forall now, hs, e | Reaches(lots, Initial(now), hs, e) && e.w.timeouts <= k && e.w.lateFills <= j
        ensures Abs(e.w.pos) <= lots
      {
        RunKeeps(lots, Initial(now), hs, e);
      }
    } else if k > 0 {
      var hs, e := UnresolvedOrderOvershoots(lots);
      assert BoundedUpTo(lots, k, j) ==> Abs(e.w.pos) <= lots;
    } else {
      var hs, e := LateFillOvershoots(lots);
      assert BoundedUpTo(lots, k, j) ==> Abs(e.w.pos) <= lots;
    }
  }
}
