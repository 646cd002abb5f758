/** When the strategy sends an order again, gives up or waits: cancelled exits, unresolved orders, and the
    pace of a halted run. */
module RetryLaws {
  import opened Common
  import opened Orders

  /** An exit of the run is cancelled. */
  predicate ExitCancelled(s: Sys, h: Happening) {
    h.Cancelled? && h.id in s.w.orders && s.w.orders[h.id].ticket.reduce
  }

  /** Cancelled exits since the last fill, over the happenings `hs` from `s` on, `n` before them. */
  function ExitCancels(lots: nat, s: Sys, hs: seq<Happening>, n: nat): nat
    decreases |hs|
  {
    if |hs| == 0 || !Possible(lots, s, hs[0]) then n
    else ExitCancels(lots, Next(s, hs[0]), hs[1..], if hs[0].Filled? then 0 else if ExitCancelled(s, hs[0]) then n + 1
        else n)
  }

  /** The count the strategy keeps: the cancelled exits since the last fill, up to 5. */
  predicate Counts(s: Sys, n: nat) {
    s.d.exitCancels == if n < 5 then n else 5
  }

  lemma ReconcileKeepsCount(s: Sys, ok: bool)
    ensures Reconcile(s, ok).d.exitCancels == s.d.exitCancels
  {
  }

  lemma StepCounts(lots: nat, s: Sys, h: Happening, n: nat)
    requires Possible(lots, s, h) && Counts(s, n)
    ensures Counts(Next(s, h), if h.Filled? then 0 else if ExitCancelled(s, h) then n + 1 else n)
  {
    match h
    case Aimed(target, ours, ok) => ReconcileKeepsCount(s.(m := Aim(target, ours, s.m.halted)), ok);
    case Filled(id, k, ok) => ReconcileKeepsCount(s.(d := s.d.(exitCancels := 0), w := AfterFill(s.w, id, k)), ok);
    case Guard(ok) => ReconcileKeepsCount(if s.w.stopping then s.(m := Halted(s.m)) else s, ok);
    case _ =>
  }

  lemma {:induction false} RunCounts(lots: nat, s: Sys, hs: seq<Happening>, e: Sys, n: nat)
    requires Reaches(lots, s, hs, e) && Counts(s, n)
    ensures Counts(e, ExitCancels(lots, s, hs, n))
    decreases |hs|
  {
    if |hs| > 0 {
      var h := hs[0];
      StepCounts(lots, s, h, n);
      RunCounts(lots, Next(s, h), hs[1..], e, if h.Filled? then 0 else if ExitCancelled(s, h) then n + 1 else n);
    }
  }

  lemma {:induction false} CountMore(lots: nat, s: Sys, hs: seq<Happening>, e: Sys, h: Happening, n: nat)
    requires Reaches(lots, s, hs, e) && Possible(lots, e, h)
    ensures var k := ExitCancels(lots, s, hs, n);
            ExitCancels(lots, s, hs + [h], n) == if h.Filled? then 0 else if ExitCancelled(e, h) then k + 1 else k
    decreases |hs|
  {
    var all := hs + [h];
    if |hs| == 0 {
      assert all == [h] && all[1..] == [];
    } else {
      assert all[0] == hs[0] && all[1..] == hs[1..] + [h];
      var m := if hs[0].Filled? then 0 else if ExitCancelled(s, hs[0]) then n + 1 else n;
      CountMore(lots, Next(s, hs[0]), hs[1..], e, h, m);
    }
  }

  /** A cancelled exit, in any run, counts one more. Up to the fifth since the last fill the wish stays: same
      target, same trade, no halt. The sixth halts. */
  lemma {:induction false} CancelledExitsAreRetried(lots: nat, now: int, before: seq<Happening>, s: Sys, id: int)
    requires Reaches(lots, Initial(now), before, s) && Possible(lots, s, Cancelled(id))
             && ExitCancelled(s, Cancelled(id))
    ensures var n := ExitCancels(lots, Initial(now), before + [Cancelled(id)], 0);
            var e := Next(s, Cancelled(id));
            && n == ExitCancels(lots, Initial(now), before, 0) + 1
            && (if n <= 5 then e.m == s.m else e.m.halted && e.m.target == 0 && !e.m.ours)
    ensures var e := Next(s, Cancelled(id));
            && e.w.pos == s.w.pos && e.w.sent == s.w.sent
            && (e.d.inFlight.Some? ==> e.d.inFlight == s.d.inFlight && e.d.inFlight.value.0 != id)
  {
    RunCounts(lots, Initial(now), before, s, 0);
    CountMore(lots, Initial(now), before, s, Cancelled(id), 0);
  }

  /** And the next guard tick with nothing else in flight sends again exactly the lots between the position and
      the target. */
  lemma {:induction false} RetriesTheSameExit(lots: nat, now: int, before: seq<Happening>, s: Sys, id: int)
    requires Reaches(lots, Initial(now), before, s) && Possible(lots, s, Cancelled(id))
             && ExitCancelled(s, Cancelled(id))
    requires ExitCancels(lots, Initial(now), before, 0) < 5 && !s.m.halted && !s.w.stopping
    requires s.d.inFlight.Some? && s.d.inFlight.value.0 == id
    requires if s.w.pos > 0 then 0 <= s.m.target < s.w.pos else s.w.pos < s.m.target <= 0
    ensures var e := Next(Next(s, Cancelled(id)), Guard(true));
            && e.w.sent == s.w.sent + [Sent(Ticket(s.m.target - s.w.pos, true), s.w.pos, false, Calm(s.w), s.w.now)]
            && e.m == s.m && e.d.inFlight == Some((s.w.nextId, s.w.now))
  {
    CancelledExitsAreRetried(lots, now, before, s, id);
    var c := Next(s, Cancelled(id));
    assert c.d.inFlight.None? && c.m == s.m && c.w.nextId == s.w.nextId && Calm(c.w) == Calm(s.w);
    assert NextOrder(s.w.pos, s.m.target) == Some(Ticket(s.m.target - s.w.pos, true));
  }

  /** A cancelled entry or flip, or an order the cache does not know, gives up the trade and does not halt. */
  lemma CancelledEntriesAreAbandoned(lots: nat, s: Sys, id: int)
    requires Possible(lots, s, Cancelled(id)) && !ExitCancelled(s, Cancelled(id))
    ensures var e := Next(s, Cancelled(id));
            && e.m.target == 0 && !e.m.ours && e.m.halted == s.m.halted && e.w.sent == s.w.sent && e.w.pos == s.w.pos
            && (e.d.inFlight.Some? ==> e.d.inFlight == s.d.inFlight && e.d.inFlight.value.0 != id)
  {
  }

  /** A refused order halts. */
  lemma RefusedOrdersHalt(lots: nat, s: Sys, id: int)
    requires Possible(lots, s, Refused(id))
    ensures var e := Next(s, Refused(id));
            && e.m.halted && e.m.target == 0 && !e.m.ours && e.w.sent == s.w.sent && e.w.pos == s.w.pos
            && (e.d.inFlight.Some? ==> e.d.inFlight == s.d.inFlight && e.d.inFlight.value.0 != id)
  {
  }

  // ----------------------------------------------------------------- unresolved orders

  /** The broker has not ended the order in flight. */
  predicate Unresolved(s: Sys) {
    s.d.inFlight.Some? && !IsClosed(s.w, s.d.inFlight.value.0)
  }

  lemma MoveGivesNothingUp(s: Sys, ok: bool)
    ensures Move(s, ok).w.timeouts == s.w.timeouts
  {
  }

  /** Reconciliation gives up the order in flight exactly when the broker has not ended it and it was sent more
      than 30 s ago. */
  lemma ReconcileGivesUp(s: Sys, ok: bool)
    ensures var e := Reconcile(s, ok);
            if Unresolved(s) && s.w.now - s.d.inFlight.value.1 > 30_000_000_000 then
              && e.w == s.w.(timeouts := s.w.timeouts + 1) && e.m.halted && e.d.inFlight.None?
              && e.d.timedOut == s.d.timedOut + [s.d.inFlight.value.0]
            else if Unresolved(s) then e == s
            else e.w.timeouts == s.w.timeouts
  {
    if !Unresolved(s) {
      MoveGivesNothingUp(Cleared(s), ok);
    }
  }

  /** A guard tick gives it up exactly then: the run halts, sends nothing, and the order stays known until it
      ends. */
  lemma GivenUpAfterThirtySeconds(s: Sys, ok: bool)
    ensures var e := Next(s, Guard(ok));
            var late := Unresolved(s) && s.w.now - s.d.inFlight.value.1 > 30_000_000_000;
            && (late ==> e.w.timeouts == s.w.timeouts + 1 && e.m.halted && e.d.inFlight.None?)
            && (late ==> e.w.sent == s.w.sent && e.d.timedOut == s.d.timedOut + [s.d.inFlight.value.0])
            && (!late ==> e.w.timeouts == s.w.timeouts)
            && (!late && Unresolved(s) ==> e.w.sent == s.w.sent && e.d.inFlight == s.d.inFlight)
  {
    ReconcileGivesUp(if s.w.stopping then s.(m := Halted(s.m)) else s, ok);
  }

  // ------------------------------------------------------------- stopping and being flat

  /** A guard tick after a requested stop halts. */
  lemma StopHalts(s: Sys, ok: bool)
    requires s.w.stopping
    ensures Next(s, Guard(ok)).m == Aim(0, false, true)
  {
  }

  /** After a stop is asked or a halt every order sent, by whatever happens, is the reduce-only exit of exactly
      the position. */
  lemma StoppingOnlyUnwinds(lots: nat, s: Sys, h: Happening)
    requires Possible(lots, s, h) && (s.w.stopping || s.m.halted)
    ensures var e := Next(s, h);
            e.w.sent == s.w.sent
            || (|e.w.sent| == |s.w.sent| + 1 && Last(e.w.sent).ticket == Ticket(-e.w.pos, true) && e.w.pos != 0)
  {
    match h
    case Aimed(target, ours, ok) => ReconcileUnwinds(s.(m := Aim(target, ours, s.m.halted)), ok);
    case Filled(id, n, ok) => ReconcileUnwinds(s.(d := s.d.(exitCancels := 0), w := AfterFill(s.w, id, n)), ok);
    case Guard(ok) => ReconcileUnwinds(if s.w.stopping then s.(m := Halted(s.m)) else s, ok);
    case _ =>
  }

  lemma ReconcileUnwinds(s: Sys, ok: bool)
    requires s.w.stopping || s.m.halted
    ensures var e := Reconcile(s, ok);
            && e.w.pos == s.w.pos
            && (e.w.sent == s.w.sent
                || (|e.w.sent| == |s.w.sent| + 1 && Last(e.w.sent).ticket == Ticket(-s.w.pos, true) && s.w.pos != 0))
  {
  }

  /** After a guard tick that leaves nothing in flight, the run is flat exactly when there is no position and
      every order once given up has ended. */
  lemma FlatExactly(s: Sys, ok: bool)
    ensures var e := Next(s, Guard(ok));
            e.d.inFlight.None? ==>
              (e.w.flat <==> e.w.pos == 0 && forall id :: id in e.d.timedOut ==> IsClosed(e.w, id))
  {
    ReconcileForgetsEnded(if s.w.stopping then s.(m := Halted(s.m)) else s, ok);
  }

  /** Orders once given up are kept while one of them is open. */
  lemma ReconcileForgetsEnded(s: Sys, ok: bool)
    ensures var e := Reconcile(s, ok);
            e.d.inFlight.None? && e.d.timedOut != [] ==> exists id :: id in e.d.timedOut && !IsClosed(e.w, id)
  {
    var e := Reconcile(s, ok);
    if Unresolved(s) {
      if e.d.inFlight.None? {
        var id := s.d.inFlight.value.0;
        assert id in e.d.timedOut && !IsClosed(e.w, id);
      }
    } else if e.d.inFlight.None? && e.d.timedOut != [] {
      assert e.d.timedOut == StillOpen(s.d.timedOut, s.w);
      assert e.d.timedOut[0] in e.d.timedOut && !IsClosed(e.w, e.d.timedOut[0]);
    }
  }

  /** A target beyond the position on its own side is never added to: the run halts without an order. */
  lemma NeverAdds(s: Sys, ok: bool)
    requires !Unresolved(s) && !s.m.halted && !s.w.stopping
    requires if s.w.pos > 0 then s.m.target > s.w.pos else s.w.pos < 0 && s.m.target < s.w.pos
    ensures var e := Next(s, Guard(ok)); e.m == Aim(0, false, true) && e.w.sent == s.w.sent && e.d.inFlight.None?
  {
  }

  /** An order that cannot be submitted after a fill halts. */
  lemma FailedSubmissionHalts(lots: nat, s: Sys, id: int, n: nat)
    requires Possible(lots, s, Filled(id, n, false)) && |Next(s, Filled(id, n, false)).w.sent| > |s.w.sent|
    ensures Next(s, Filled(id, n, false)).m == Aim(0, false, true)
  {
  }

  // --------------------------------------------------------------- the pace of a halted run

  function HaltedOrders(sent: seq<Sent>): nat {
    if |sent| == 0 then 0 else HaltedOrders(Front(sent)) + (if Last(sent).halted then 1 else 0)
  }

  /** When the last order of the halted run was sent. */
  function LastHalted(sent: seq<Sent>): int {
    if |sent| == 0 then 0 else if Last(sent).halted then Last(sent).at else LastHalted(Front(sent))
  }

  /** Every order of the halted run after the third comes at least 10 s after the one before it. */
  ghost predicate Paced(sent: seq<Sent>) {
    forall i :: 0 <= i < |sent| ==> PacedAt(sent, i)
  }

  ghost predicate PacedAt(sent: seq<Sent>, i: nat)
    requires i < |sent|
  {
    sent[i].halted && HaltedOrders(sent[..i]) >= 3 ==> sent[i].at - LastHalted(sent[..i]) >= 10_000_000_000
  }

  ghost predicate Pacing(s: Sys) {
    var ok := s.d.attempts == HaltedOrders(s.w.sent) && s.d.lastFlatten == LastHalted(s.w.sent) && Paced(s.w.sent);
    ok
  }

  lemma {:induction false} SentMore(sent: seq<Sent>, x: Sent)
    requires Paced(sent)
    requires x.halted && HaltedOrders(sent) >= 3 ==> x.at - LastHalted(sent) >= 10_000_000_000
    ensures Paced(sent + [x])
    ensures HaltedOrders(sent + [x]) == HaltedOrders(sent) + (if x.halted then 1 else 0)
    ensures LastHalted(sent + [x]) == if x.halted then x.at else LastHalted(sent)
  {
    var more := sent + [x];
    assert Front(more) == sent && Last(more) == x;
    forall i | 0 <= i < |more|
      ensures PacedAt(more, i)
    {
      if i < |sent| {
        assert PacedAt(sent, i) && more[i] == sent[i] && more[..i] == sent[..i];
      } else {
        assert more[..i] == sent;
      }
    }
  }

  lemma SendPaces(s: Sys, t: Ticket, ok: bool)
    requires Pacing(s) && (s.m.halted ==> s.d.attempts < 3 || s.w.now - s.d.lastFlatten >= 10_000_000_000)
    ensures Pacing(Send(s, t, ok))
  {
    SentMore(s.w.sent, Sent(t, s.w.pos, s.m.halted, Calm(s.w), s.w.now));
  }

  lemma ReconcilePaces(s: Sys, ok: bool)
    requires Pacing(s)
    ensures Pacing(Reconcile(s, ok))
  {
    if !(s.d.inFlight.Some? && !IsClosed(s.w, s.d.inFlight.value.0)) {
      var c := Cleared(s);
      var target := Effective(c.m, c.w);
      if c.w.pos != target && (c.m.halted ==> FlattenDue(c.d.attempts, c.d.lastFlatten, c.w.now))
          && NextOrder(c.w.pos, target).Some? {
        SendPaces(c, NextOrder(c.w.pos, target).value, ok);
      }
    }
  }

  lemma StepPaces(lots: nat, s: Sys, h: Happening)
    requires Pacing(s) && Possible(lots, s, h)
    ensures Pacing(Next(s, h))
  {
    match h
    case Aimed(target, ours, ok) => ReconcilePaces(s.(m := Aim(target, ours, s.m.halted)), ok);
    case Filled(id, k, ok) => ReconcilePaces(s.(d := s.d.(exitCancels := 0), w := AfterFill(s.w, id, k)), ok);
    case Guard(ok) => ReconcilePaces(if s.w.stopping then s.(m := Halted(s.m)) else s, ok);
    case _ =>
  }

  lemma {:induction false} RunPaces(lots: nat, s: Sys, hs: seq<Happening>, e: Sys)
    requires Reaches(lots, s, hs, e) && Pacing(s)
    ensures Pacing(e)
    decreases |hs|
  {
    if |hs| > 0 {
      StepPaces(lots, s, hs[0]);
      RunPaces(lots, Next(s, hs[0]), hs[1..], e);
    }
  }

  /** The pace of a halted run, in every run: after three exits at once, no two are less than 10 s apart; and a
      guard tick with nothing in flight and lots open sends the exit exactly when the pace allows it. */
  lemma {:induction false} HaltedRunsArePaced(lots: nat, now: int, before: seq<Happening>, s: Sys)
    requires Reaches(lots, Initial(now), before, s)
    ensures Paced(s.w.sent)
    ensures s.m.halted && s.w.pos != 0 && (s.d.inFlight.Some? ==> IsClosed(s.w, s.d.inFlight.value.0)) ==>
              (|Next(s, Guard(true)).w.sent| > |s.w.sent|
               <==> HaltedOrders(s.w.sent) < 3 || s.w.now - LastHalted(s.w.sent) >= 10_000_000_000)
  {
    assert Pacing(Initial(now));
    RunPaces(lots, Initial(now), before, s);
  }
}
