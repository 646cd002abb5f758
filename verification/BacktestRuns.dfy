/** `replay` (`apps/kite-node/src/native_node/model_backtest.rs`) over a whole history: every row closes
    its lots, the lots are those of the live target, no trade stays overnight, a reversal is one flip. */
module BacktestRuns {
  import opened Common
  import opened Wvad
  import opened TradeLaws
  import opened Orders
  import opened Plan
  import opened Backtest
  import opened SessionTimes

  // ---------------------------------------------------------------- sessions

  datatype Input = Input(start: int, b: Bar, s: Signals)

  predicate LastOfDay(bars: seq<Input>, i: nat)
    requires i < |bars|
  {
    i + 1 == |bars| || Day(bars[i + 1].start) != Day(bars[i].start)
  }

  // -------------------------------------------------------------- one bar of the replay

  /** Entries are taken from day `from` on, never on a day's last bar. */
  predicate Allowed(k: Session, bars: seq<Input>, from: int, i: nat)
    requires i < |bars|
  {
    Day(bars[i].start) >= from && !LastOfDay(bars, i) && EntriesAllowed(k.rules, bars[i].start + k.step)
  }

  /** A forced close after the bar: the square-off time or the day's last bar. */
  predicate Squares(k: Session, bars: seq<Input>, i: nat)
    requires i < |bars|
  {
    SquareOffDue(k.rules, bars[i].start + k.step) || LastOfDay(bars, i)
  }

  /** Engine state and events of bar `i`. */
  function BarEvents(eng: State, k: Session, p: Params, bars: seq<Input>, from: int, i: nat): (r: (State, seq<Event>))
    requires i < |bars| && ValidParams(p) && (eng.trade.Some? ==> eng.trade.value.risk > 0.0)
  {
    var (e1, evs) := OnBar(eng, p, bars[i].b, bars[i].s, Allowed(k, bars, from, i));
    OnBarHasRisk(eng, p, bars[i].b, bars[i].s, Allowed(k, bars, from, i));
    if Squares(k, bars, i) then (State(e1.barIndex, None), evs + ForceClose(e1.trade, bars[i].b.close, SquareOff))
    else (e1, evs)
  }

  lemma OnBarHasRisk(st: State, p: Params, b: Bar, s: Signals, allowed: bool)
    requires ValidParams(p) && (st.trade.Some? ==> st.trade.value.risk > 0.0)
    ensures var t := OnBar(st, p, b, s, allowed).0.trade; t.Some? ==> t.value.risk > 0.0
  {
    if SignalDir(p, st.barIndex, b, s, allowed) != 0 {
      SignalHasRisk(p, st.barIndex, b, s, allowed);
    }
  }

  /** Engine, book, and what the live target would be after the same events. */
  datatype Replay = Replay(eng: State, book: Book, aim: Aim)

  function Stepped(x: Replay, k: Session, p: Params, bars: seq<Input>, from: int, i: nat): Replay
    requires i < |bars| && ValidParams(p) && (x.eng.trade.Some? ==> x.eng.trade.value.risk > 0.0)
  {
    var (eng, evs) := BarEvents(x.eng, k, p, bars, from, i);
    Replay(eng, HandledAll(x.book.(flip := false), k, evs, bars[i].start + k.step),
        AppliedAll(x.aim, k.slot, evs, true))
  }

  // ----------------------------------------------------------------- the engine's events

  ghost predicate AllSized(es: seq<Event>, p: Params) {
    forall i :: 0 <= i < |es| ==> Sized(es[i], p)
  }

  lemma {:induction false} RangeSized(t: Trade, from: nat, upto: nat, p: Params)
    requires ValidParams(p) && TradeLaws.Sound(t, p) && 1 <= from && upto <= 3 && (from <= 3 ==> Due(t, from))
    ensures AllSized(HitRange(t, from, upto, p).1, p)
    decreases 4 - from
  {
    if from <= upto {
      HitSound(t, from, p);
      if !IsHit(t, from) {
        HitBooks(t, from, p);
      }
      RangeSized(Hit(t, from, p).0, from + 1, upto, p);
    }
  }

  /** Partials of the right size, then perhaps an exit; a reversal exit only on an opposite signal. */
  lemma ManageSized(t: Trade, p: Params, b: Bar, dir: int)
    requires ValidParams(p) && Riding(t, p)
    ensures var evs := Manage(t, p, b, dir).1;
            && AllSized(evs, p)
            && (forall i :: 0 <= i < |evs| ==> !evs[i].Entry?)
            && (|evs| > 0 && Last(evs).Exit? && Last(evs).reason == Reversal ==>
               dir != 0 && Manage(t, p, b, dir).0.None?)
  {
    if !Stopped(t, b) {
      ManageIsOutcome(t, p, b, dir);
      RangeSized(t, 1, Reach(t, p, b), p);
      RangeHasNoEntry(t, 1, Reach(t, p, b), p);
    }
  }

  /** A bar never ends on a reversal exit: the entry follows it. Entries only when allowed. */
  lemma BarSized(st: State, p: Params, b: Bar, s: Signals, allowed: bool)
    requires ValidParams(p) && TradeLaws.Inv(st, p)
    ensures var evs := OnBar(st, p, b, s, allowed).1;
            && AllSized(evs, p)
            && (forall i :: 0 <= i < |evs| && evs[i].Entry? ==> allowed)
            && !(|evs| > 0 && Last(evs).Exit? && Last(evs).reason == Reversal)
  {
    var dir := SignalDir(p, st.barIndex, b, s, allowed);
    if st.trade.Some? {
      ManageSized(st.trade.value, p, b, dir);
    }
    if dir != 0 {
      SignalHasRisk(p, st.barIndex, b, s, allowed);
    }
  }

  /** The events of a bar with its forced close: legal for the ledger, rightly sized, entries only when
      allowed, not ending on a reversal exit. */
  lemma BarEventsLegal(eng: State, k: Session, p: Params, bars: seq<Input>, from: int, i: nat)
    requires i < |bars| && ValidParams(p) && TradeLaws.Inv(eng, p)
    ensures var (e2, evs) := BarEvents(eng, k, p, bars, from, i);
            && TradeLaws.Inv(e2, p) && PostAll(AccountOf(eng.trade, p), evs) == Some(AccountOf(e2.trade, p))
            && AllSized(evs, p)
            && (forall j :: 0 <= j < |evs| && evs[j].Entry? ==> Allowed(k, bars, from, i))
            && !(|evs| > 0 && Last(evs).Exit? && Last(evs).reason == Reversal)
            && (Squares(k, bars, i) ==> e2.trade.None?)
  {
    var allowed := Allowed(k, bars, from, i);
    BarPosts(eng, p, bars[i].b, bars[i].s, allowed);
    BarSized(eng, p, bars[i].b, bars[i].s, allowed);
    if Squares(k, bars, i) {
      var (e1, evs) := OnBar(eng, p, bars[i].b, bars[i].s, allowed);
      if e1.trade.Some? {
        FinishAfter(AccountOf(eng.trade, p), evs, e1.trade.value, bars[i].b.close, SquareOff, p);
      } else {
        assert evs + [] == evs;
      }
    }
  }

  // ------------------------------------------------------------------- events in step

  lemma EventInStep(book: Book, l: Ledger, m: Aim, k: Session, p: Params, e: Event, ts: int)
    requires Matches(k.slot, p) && InStep(book, l, m, k) && Sized(e, p) && Post(l, e).Some?
    ensures InStep(Handled(book, k, e, ts), Post(l, e).value, Applied(m, k.slot, e, true), k)
  {
    match e
    case Entry(_, _, _, _, _, _) => EntryInStep(book, l, m, k, e, ts);
    case Partial(_, _, _, _) => PartialInStep(book, l, m, k, p, e, ts);
    case Exit(_, _, _, _, _, _) => ExitInStep(book, l, m, k, e, ts);
  }

  /** Over any legal events, the book, the ledger and the live target stay in step. */
  lemma {:induction false} EventsInStep(book: Book, l: Ledger, m: Aim, k: Session, p: Params, es: seq<Event>, ts: int)
    requires Matches(k.slot, p) && InStep(book, l, m, k) && AllSized(es, p) && PostAll(l, es).Some?
    ensures InStep(HandledAll(book, k, es, ts), PostAll(l, es).value, AppliedAll(m, k.slot, es, true), k)
    decreases |es|
  {
    if |es| > 0 {
      EventInStep(book, l, m, k, p, es[0], ts);
      SizedTail(es, p);
      EventsInStep(Handled(book, k, es[0], ts), Post(l, es[0]).value, Applied(m, k.slot, es[0], true), k, p, es[1..],
          ts);
    }
  }

  lemma SizedTail(es: seq<Event>, p: Params)
    requires |es| > 0 && AllSized(es, p)
    ensures AllSized(es[1..], p) && Sized(es[0], p)
  {
  }

  function LotsOpen(book: Book): nat {
    if book.open.Some? then book.open.value.lotsOpen else 0
  }

  lemma {:induction false} LegalPrefix(l: Ledger, es: seq<Event>, n: nat)
    requires n <= |es| && PostAll(l, es).Some?
    ensures PostAll(l, es[..n]).Some?
  {
    assert es == es[..n] + es[n..];
    PostSplit(l, es[..n], es[n..]);
  }

  /** The backtest holds the lots of the live target after each event of any legal event sequence, and
      holds a row exactly while the live run holds a trade. */
  lemma {:induction false} LotsAfterEachEvent(
      k: Session, p: Params, es: seq<Event>, ts: int, n: nat, book: Book, halted: bool)
    requires Matches(k.slot, p) && AllSized(es, p) && PostAll(Flat, es).Some? && n <= |es| && book.open.None?
    ensures var b := HandledAll(book, k, es[..n], ts);
            var m := AppliedAll(Aim(0, false, halted), k.slot, es[..n], true);
            LotsOpen(b) == Abs(m.target) && (b.open.Some? <==> m.ours)
            && (b.open.Some? ==> m.target == b.open.value.dir * LotsOpen(b))
  {
    LegalPrefix(Flat, es, n);
    assert AllSized(es[..n], p) by {
      forall i | 0 <= i < n ensures Sized(es[..n][i], p) {
        assert es[..n][i] == es[i];
      }
    }
    EventsInStep(book, Flat, Aim(0, false, halted), k, p, es[..n], ts);
    InStepLots(HandledAll(book, k, es[..n], ts), PostAll(Flat, es[..n]).value,
        AppliedAll(Aim(0, false, halted), k.slot, es[..n], true), k);
  }

  lemma InStepLots(b: Book, l: Ledger, m: Aim, k: Session)
    requires InStep(b, l, m, k)
    ensures LotsOpen(b) == Abs(m.target) && (b.open.Some? <==> m.ours) && (b.open.Some? <==> l.Holding?)
    ensures b.open.Some? ==> m.target == b.open.value.dir * LotsOpen(b)
  {
  }

  // --------------------------------------------------------------------- rows

  /** The bar that closes at `ts` may open a trade. */
  predicate Timely(k: Session, from: int, ts: int) {
    Day(ts - k.step) >= from && EntriesAllowed(k.rules, ts)
  }

  /** A row adds up, was entered at an allowed time, and was closed on the day it was opened. */
  ghost predicate RowOk(r: Row, k: Session, from: int) {
    RowAddsUp(r, k) && Timely(k, from, r.entryTs) && Day(r.entryTs - k.step) == Day(r.exitTs - k.step)
  }

  ghost predicate RowsOk(rows: seq<Row>, k: Session, from: int) {
    forall i :: 0 <= i < |rows| ==> RowOk(rows[i], k, from)
  }

  ghost predicate OpenOk(open: Option<OpenRow>, k: Session, from: int, day: int) {
    open.Some? ==> Timely(k, from, open.value.entryTs) && Day(open.value.entryTs - k.step) == day
  }

  lemma EventRows(book: Book, l: Ledger, m: Aim, k: Session, p: Params, e: Event, ts: int, from: int)
    requires Matches(k.slot, p) && InStep(book, l, m, k) && Post(l, e).Some?
    requires RowsOk(book.rows, k, from) && OpenOk(book.open, k, from, Day(ts - k.step))
    requires e.Entry? ==> Timely(k, from, ts)
    ensures RowsOk(Handled(book, k, e, ts).rows, k, from)
    ensures OpenOk(Handled(book, k, e, ts).open, k, from, Day(ts - k.step))
  {
    if e.Exit? {
      ExitInStep(book, l, m, k, e, ts);
    }
  }

  ghost predicate EntriesTimely(es: seq<Event>, k: Session, from: int, ts: int) {
    forall i :: 0 <= i < |es| && es[i].Entry? ==> Timely(k, from, ts)
  }

  lemma {:induction false} EventsRows(
      book: Book, l: Ledger, m: Aim, k: Session, p: Params, es: seq<Event>, ts: int, from: int)
    requires Matches(k.slot, p) && InStep(book, l, m, k) && AllSized(es, p) && PostAll(l, es).Some?
    requires RowsOk(book.rows, k, from) && OpenOk(book.open, k, from, Day(ts - k.step))
             && EntriesTimely(es, k, from, ts)
    ensures RowsOk(HandledAll(book, k, es, ts).rows, k, from)
    ensures OpenOk(HandledAll(book, k, es, ts).open, k, from, Day(ts - k.step))
    decreases |es|
  {
    if |es| > 0 {
      EventInStep(book, l, m, k, p, es[0], ts);
      EventRows(book, l, m, k, p, es[0], ts, from);
      SizedTail(es, p);
      assert EntriesTimely(es[1..], k, from, ts) by {
        forall i | 0 <= i < |es[1..]| && es[1..][i].Entry? ensures Timely(k, from, ts) {
          assert es[i + 1].Entry?;
        }
      }
      EventsRows(Handled(book, k, es[0], ts), Post(l, es[0]).value, Applied(m, k.slot, es[0], true), k, p, es[1..], ts,
          from);
    }
  }

  // -------------------------------------------------------------------- flips

  /** What follows row `i`: the next row or the open one, whether it is a flip entry and when. */
  function Next(book: Book, i: nat): Option<(bool, int)>
    requires i < |book.rows|
  {
    if i + 1 < |book.rows| then Some((book.rows[i + 1].flipEntry, book.rows[i + 1].entryTs))
    else if book.open.Some? then Some((book.open.value.flipEntry, book.open.value.entryTs))
    else None
  }

  /** Row `i` ended in a reversal exactly when what follows it is the other half of the same flip. */
  predicate Flips(book: Book, i: nat)
    requires i < |book.rows|
  {
    var next, reversal := Next(book, i), book.rows[i].reason == Reversal;
    if next.None? then book.flip == reversal
    else next.value.0 == reversal && (reversal ==> next.value.1 == book.rows[i].exitTs)
  }

  ghost predicate Chained(book: Book) {
    forall i :: 0 <= i < |book.rows| ==> Flips(book, i)
  }

  /** The first trade is not a flip; a pending flip belongs to this bar and to no open row. */
  predicate FlipStarts(book: Book, ts: int) {
    && (|book.rows| > 0 ==> !book.rows[0].flipEntry)
    && (|book.rows| == 0 && book.open.Some? ==> !book.open.value.flipEntry)
    && (book.flip ==> book.open.None? && |book.rows| > 0 && Last(book.rows).exitTs == ts)
  }

  lemma EventChains(book: Book, k: Session, e: Event, ts: int)
    requires Chained(book) && FlipStarts(book, ts) && (e.Entry? <==> book.open.None?)
    ensures Chained(Handled(book, k, e, ts)) && FlipStarts(Handled(book, k, e, ts), ts)
  {
    var b2 := Handled(book, k, e, ts);
    forall i | 0 <= i < |b2.rows| ensures Flips(b2, i) {
      if i < |book.rows| {
        assert Flips(book, i);
      }
    }
  }

  /** Legal events alternate entries and exits. */
  lemma LegalAlternates(book: Book, l: Ledger, m: Aim, k: Session, e: Event)
    requires InStep(book, l, m, k) && Post(l, e).Some?
    ensures e.Entry? <==> book.open.None?
  {
  }

  lemma {:induction false} EventsChain(book: Book, l: Ledger, m: Aim, k: Session, p: Params, es: seq<Event>, ts: int)
    requires Matches(k.slot, p) && InStep(book, l, m, k) && AllSized(es, p) && PostAll(l, es).Some?
    requires Chained(book) && FlipStarts(book, ts)
    ensures Chained(HandledAll(book, k, es, ts)) && FlipStarts(HandledAll(book, k, es, ts), ts)
    ensures |es| > 0 ==> (HandledAll(book, k, es, ts).flip ==> Last(es).Exit? && Last(es).reason == Reversal)
    decreases |es|
  {
    if |es| > 0 {
      EventInStep(book, l, m, k, p, es[0], ts);
      LegalAlternates(book, l, m, k, es[0]);
      EventChains(book, k, es[0], ts);
      SizedTail(es, p);
      EventsChain(Handled(book, k, es[0], ts), Post(l, es[0]).value, Applied(m, k.slot, es[0], true), k, p, es[1..],
          ts);
      assert |es| > 1 ==> Last(es[1..]) == Last(es);
    }
  }

  // --------------------------------------------------------------------- the run

  /** What holds between two bars, `i` of which are done. */
  ghost predicate Between(x: Replay, k: Session, p: Params, bars: seq<Input>, from: int, i: nat)
    requires i <= |bars|
  {
    && TradeLaws.Inv(x.eng, p) && InStep(x.book, AccountOf(x.eng.trade, p), x.aim, k)
    && RowsOk(x.book.rows, k, from) && Chained(x.book) && FlipStarts(x.book, 0) && !x.book.flip
    && (if i == 0 || LastOfDay(bars, i - 1) then x.book.open.None?
        else OpenOk(x.book.open, k, from, Day(bars[i - 1].start)))
  }

  lemma NoFlipStarts(book: Book, ts: int, ts2: int)
    requires FlipStarts(book, ts) && !book.flip
    ensures FlipStarts(book, ts2)
  {
  }

  /** One bar keeps everything. */
  lemma BarKeeps(x: Replay, k: Session, p: Params, bars: seq<Input>, from: int, i: nat)
    requires ValidParams(p) && Matches(k.slot, p) && i < |bars| && Between(x, k, p, bars, from, i)
    ensures Between(Stepped(x, k, p, bars, from, i), k, p, bars, from, i + 1)
  {
    var ts := bars[i].start + k.step;
    var book := x.book.(flip := false);
    assert book == x.book;
    BarEventsLegal(x.eng, k, p, bars, from, i);
    var (e2, evs) := BarEvents(x.eng, k, p, bars, from, i);
    var l := AccountOf(x.eng.trade, p);
    EventsInStep(book, l, x.aim, k, p, evs, ts);
    assert ts - k.step == bars[i].start;
    assert EntriesTimely(evs, k, from, ts);
    assert OpenOk(book.open, k, from, Day(bars[i].start));
    EventsRows(book, l, x.aim, k, p, evs, ts, from);
    NoFlipStarts(book, 0, ts);
    EventsChain(book, l, x.aim, k, p, evs, ts);
    var b2 := HandledAll(book, k, evs, ts);
    assert !b2.flip;
    NoFlipStarts(b2, ts, 0);
  }

  ghost predicate IsStepped(x: Replay, k: Session, p: Params, bars: seq<Input>, from: int, i: nat, r: Replay) {
    forall y {:trigger Stepped(y, k, p, bars, from, i)} ::
      y == x && i < |bars| && ValidParams(p) && (y.eng.trade.Some? ==> y.eng.trade.value.risk > 0.0) ==>
        r == Stepped(y, k, p, bars, from, i)
  }

  /** `Stepped`, with its formula in `AdvancedIs`. */
  ghost function Advanced(x: Replay, k: Session, p: Params, bars: seq<Input>, from: int, i: nat): Replay
    requires i < |bars| && ValidParams(p) && (x.eng.trade.Some? ==> x.eng.trade.value.risk > 0.0)
  {
    assert IsStepped(x, k, p, bars, from, i, Stepped(x, k, p, bars, from, i));
    var r :| IsStepped(x, k, p, bars, from, i, r);
    r
  }

  lemma {:induction false} AdvancedIs(x: Replay, k: Session, p: Params, bars: seq<Input>, from: int, i: nat)
    requires i < |bars| && ValidParams(p) && (x.eng.trade.Some? ==> x.eng.trade.value.risk > 0.0)
    ensures Advanced(x, k, p, bars, from, i) == Stepped(x, k, p, bars, from, i)
  {
    assert IsStepped(x, k, p, bars, from, i, Advanced(x, k, p, bars, from, i));
  }

  ghost function RunTo(k: Session, p: Params, bars: seq<Input>, from: int, n: nat): (x: Replay)
    requires ValidParams(p) && n <= |bars|
    ensures x.eng.trade.Some? ==> x.eng.trade.value.risk > 0.0
  {
    if n == 0 then Replay(State(0, None), Book(None, [], false), Aim(0, false, false))
    else
      var x := RunTo(k, p, bars, from, n - 1);
      AdvancedIs(x, k, p, bars, from, n - 1);
      SteppedHasRisk(x, k, p, bars, from, n - 1);
      Advanced(x, k, p, bars, from, n - 1)
  }

  lemma SteppedHasRisk(x: Replay, k: Session, p: Params, bars: seq<Input>, from: int, i: nat)
    requires i < |bars| && ValidParams(p) && (x.eng.trade.Some? ==> x.eng.trade.value.risk > 0.0)
    ensures var t := Stepped(x, k, p, bars, from, i).eng.trade; t.Some? ==> t.value.risk > 0.0
  {
    OnBarHasRisk(x.eng, p, bars[i].b, bars[i].s, Allowed(k, bars, from, i));
  }

  lemma {:induction false} ReplayKeeps(k: Session, p: Params, bars: seq<Input>, from: int, n: nat)
    requires ValidParams(p) && Matches(k.slot, p) && n <= |bars|
    ensures Between(RunTo(k, p, bars, from, n), k, p, bars, from, n)
  {
    if n > 0 {
      ReplayKeeps(k, p, bars, from, n - 1);
      AdvancedIs(RunTo(k, p, bars, from, n - 1), k, p, bars, from, n - 1);
      BarKeeps(RunTo(k, p, bars, from, n - 1), k, p, bars, from, n - 1);
    }
  }

  // ------------------------------------------------------------------ main results

  /** After any number of bars: a row is open exactly while the engine has a trade and the live target
      is not flat, with the lots of the live target and of the model; after a day's last bar nothing is
      open, neither in the book nor in the engine. */
  lemma {:induction false} ReplayMatchesLive(k: Session, p: Params, bars: seq<Input>, from: int, n: nat)
    requires ValidParams(p) && Matches(k.slot, p) && n <= |bars|
    ensures var x := RunTo(k, p, bars, from, n);
            && (x.book.open.Some? <==> x.eng.trade.Some?) && (x.book.open.Some? <==> x.aim.ours)
            && LotsOpen(x.book) == Abs(x.aim.target)
            && (x.eng.trade.Some? ==> x.aim.target == x.eng.trade.value.dir * LotsOpen(x.book) != 0)
            && (n > 0 && LastOfDay(bars, n - 1) ==> x.book.open.None? && x.eng.trade.None? && x.aim.target == 0)
  {
    var x := RunTo(k, p, bars, from, n);
    ReplayKeeps(k, p, bars, from, n);
    var l := AccountOf(x.eng.trade, p);
    InStepLots(x.book, l, x.aim, k);
    if x.eng.trade.Some? {
      HoldsLots(x.book, l, x.aim, k);
    }
  }

  lemma HoldsLots(b: Book, l: Ledger, m: Aim, k: Session)
    requires ValidSlot(k.slot) && InStep(b, l, m, k) && l.Holding?
    ensures b.open.Some? && b.open.value.dir == l.dir && LotsOpen(b) >= 1
  {
  }

  /** Every row of a whole replay closes exactly the slot's lots, its points are the model's R in points
      less two slippages a lot, its entry time was allowed and its exit is on the day of its entry. */
  lemma {:induction false} RowsAreWhole(k: Session, p: Params, bars: seq<Input>, from: int)
    requires ValidParams(p) && Matches(k.slot, p)
    ensures var x := RunTo(k, p, bars, from, |bars|);
            x.book.open.None? && RowsOk(x.book.rows, k, from)
  {
    assert |bars| > 0 ==> LastOfDay(bars, |bars| - 1);
    ReplayKeeps(k, p, bars, from, |bars|);
  }

  function TotalOrders(rows: seq<Row>): nat {
    if |rows| == 0 then 0 else TotalOrders(Front(rows)) + Last(rows).orders
  }

  function TotalFills(rows: seq<Row>): nat {
    if |rows| == 0 then 0 else TotalFills(Front(rows)) + |Last(rows).fills|
  }

  function Reversals(rows: seq<Row>): nat {
    if |rows| == 0 then 0 else Reversals(Front(rows)) + if Last(rows).reason == Reversal then 1 else 0
  }

  ghost predicate RowsChained(rows: seq<Row>) {
    && (|rows| > 0 ==> !rows[0].flipEntry)
    && forall i :: 0 < i < |rows| ==> (rows[i].flipEntry <==> rows[i - 1].reason == Reversal)
  }

  /** The last row's reversal has no entry yet, the others have theirs. */
  lemma {:induction false} OrdersCount(rows: seq<Row>, k: Session, from: int)
    requires RowsOk(rows, k, from) && RowsChained(rows) && |rows| > 0
    ensures TotalOrders(rows) + Reversals(rows)
         == TotalFills(rows) + |rows| + if Last(rows).reason == Reversal then 1 else 0
  {
    if |rows| > 1 {
      var f := Front(rows);
      assert RowsOk(f, k, from) by {
        forall i | 0 <= i < |f| ensures RowOk(f[i], k, from) {
          assert f[i] == rows[i];
        }
      }
      OrdersCount(f, k, from);
      RowOrders(rows[|rows| - 1], k, from);
    } else {
      RowOrders(rows[0], k, from);
      assert TotalOrders(Front(rows)) == 0 && TotalFills(Front(rows)) == 0 && Reversals(Front(rows)) == 0;
    }
  }

  lemma RowOrders(r: Row, k: Session, from: int)
    requires RowOk(r, k, from)
    ensures r.orders == |r.fills| + if r.flipEntry then 0 else 1
  {
  }

  lemma ChainedRows(book: Book)
    requires Chained(book) && FlipStarts(book, 0) && !book.flip && book.open.None?
    ensures RowsChained(book.rows)
    ensures |book.rows| > 0 ==> Last(book.rows).reason != Reversal
    ensures forall i :: 0 < i < |book.rows| && book.rows[i].flipEntry ==>
            book.rows[i].entryTs == book.rows[i - 1].exitTs
  {
    forall i | 0 < i < |book.rows|
      ensures book.rows[i].flipEntry <==> book.rows[i - 1].reason == Reversal
      ensures book.rows[i].flipEntry ==> book.rows[i].entryTs == book.rows[i - 1].exitTs
    {
      assert Flips(book, i - 1);
    }
    if |book.rows| > 0 {
      assert Flips(book, |book.rows| - 1);
    }
  }

  /** A reversal is one order: every reversal is followed at the same time by the trade it opens, and the
      orders charged to all rows are their fills and one entry a row, less one for every reversal. */
  lemma {:induction false} ReversalIsOneOrder(k: Session, p: Params, bars: seq<Input>, from: int)
    requires ValidParams(p) && Matches(k.slot, p)
    ensures var rows := RunTo(k, p, bars, from, |bars|).book.rows;
            && TotalOrders(rows) + Reversals(rows) == TotalFills(rows) + |rows|
            && (|rows| > 0 ==> Last(rows).reason != Reversal)
            && (forall i :: 0 < i < |rows| ==> (rows[i].flipEntry <==> rows[i - 1].reason == Reversal))
            && (forall i :: 0 < i < |rows| && rows[i].flipEntry ==> rows[i].entryTs == rows[i - 1].exitTs)
  {
    RowsAreWhole(k, p, bars, from);
    var x := RunTo(k, p, bars, from, |bars|);
    ReplayKeeps(k, p, bars, from, |bars|);
    ChainedRows(x.book);
    if |x.book.rows| > 0 {
      OrdersCount(x.book.rows, k, from);
    }
  }

  // -------------------------------------------------------------------- the loop

  /** The rows being built while the bars are replayed. */
  class Replayer {
    const k: Session
    var open: Option<OpenRow>
    var rows: seq<Row>
    var flip: bool

    function View(): Book
      reads this
    {
      Book(open, rows, flip)
    }

    constructor (k: Session)
      ensures this.k == k && View() == Book(None, [], false)
    {
      this.k := k;
      this.open := None;
      this.rows := [];
      this.flip := false;
    }

    method TakeFill(px: real, lots: nat)
      requires open.Some? && lots <= open.value.lotsOpen
      modifies this`open
      ensures open == Some(RowFilled(old(open.value), px, lots, k))
    {
      var o := open.value;
      var exec := Exec(o.dir, px, k.slip);
      open := Some(o.(points := o.points + Points(o.dir, o.entry, px, k.slip, lots),
                      lotsOpen := o.lotsOpen - lots, orders := o.orders + 1, fills := o.fills + [Fill(lots, exec)]));
    }

    method Handle(e: Event, ts: int)
      modifies this
      ensures View() == Handled(old(View()), k, e, ts)
    {
      match e {
        case Partial(_, _, price, fraction) =>
          if open.Some? {
            var lots := Tranche(k.slot, fraction, open.value.lotsOpen);
            if 0 < lots < open.value.lotsOpen {
              TakeFill(price, lots);
            }
          }
        case Exit(_, price, reason, _, grossR, _) =>
          if open.Some? {
            flip := reason == Reversal;
            TakeFill(price, open.value.lotsOpen);
            rows := rows + [Closed(open.value, ts, price, reason, grossR, k)];
            open := None;
          }
        case Entry(dir, price, stop, _, _, _) =>
          var flipEntry := flip;
          flip := false;
          open := Some(OpenRow(dir, ts, price, stop, k.slot.lots, 0.0, if flipEntry then 0 else 1, flipEntry, []));
      }
    }

    method HandleAll(es: seq<Event>, ts: int)
      modifies this
      ensures View() == HandledAll(old(View()), k, es, ts)
    {
      var i := 0;
      while i < |es|
        invariant 0 <= i <= |es|
        invariant HandledAll(View(), k, es[i..], ts) == HandledAll(old(View()), k, es, ts)
      {
        assert es[i..][1..] == es[i + 1..];
        Handle(es[i], ts);
        i := i + 1;
      }
    }
  }

  lemma {:induction false} HandledSplit(book: Book, k: Session, a: seq<Event>, b: seq<Event>, ts: int)
    ensures HandledAll(book, k, a + b, ts) == HandledAll(HandledAll(book, k, a, ts), k, b, ts)
    decreases |a|
  {
    if |a| == 0 {
      assert a + b == b;
    } else {
      assert (a + b)[1..] == a[1..] + b;
      HandledSplit(Handled(book, k, a[0], ts), k, a[1..], b, ts);
    }
  }

  lemma {:induction false} RunToNext(k: Session, p: Params, bars: seq<Input>, from: int, n: nat)
    requires ValidParams(p) && n < |bars|
    ensures var x := RunTo(k, p, bars, from, n);
            (x.eng.trade.Some? ==> x.eng.trade.value.risk > 0.0)
                && RunTo(k, p, bars, from, n + 1) == Stepped(x, k, p, bars, from, n)
  {
    AdvancedIs(RunTo(k, p, bars, from, n), k, p, bars, from, n);
  }

  /** Replays the bars, oldest first; bars before day `from` only warm the model. */
  method ReplayAll(k: Session, p: Params, bars: seq<Input>, from: int) returns (rows: seq<Row>)
    requires ValidParams(p) && Matches(k.slot, p)
    ensures rows == RunTo(k, p, bars, from, |bars|).book.rows
  {
    var engine := new Engine(p);
    var book := new Replayer(k);
    var i := 0;
    ghost var x := RunTo(k, p, bars, from, 0);
    while i < |bars|
      invariant 0 <= i <= |bars| && engine.Valid() && engine.p == p && book.k == k
      invariant x == RunTo(k, p, bars, from, i) && engine.View() == x.eng && book.View() == x.book
    {
      RunToNext(k, p, bars, from, i);
      ReplayBar(engine, book, k, p, bars, from, i, x);
      x := Stepped(x, k, p, bars, from, i);
      i := i + 1;
    }
    rows := book.rows;
  }

  /** The bar's own events, then the forced close. */
  lemma {:induction false} SteppedInTwo(x: Replay, k: Session, p: Params, bars: seq<Input>, from: int, i: nat)
    requires i < |bars| && ValidParams(p) && (x.eng.trade.Some? ==> x.eng.trade.value.risk > 0.0)
    ensures var (e1, evs) := OnBar(x.eng, p, bars[i].b, bars[i].s, Allowed(k, bars, from, i));
            var ts := bars[i].start + k.step;
            var b1 := HandledAll(x.book.(flip := false), k, evs, ts);
            && (e1.trade.Some? ==> e1.trade.value.risk > 0.0)
            && Stepped(x, k, p, bars, from, i).eng == (if Squares(k, bars, i) then State(e1.barIndex, None) else e1)
            && Stepped(x, k, p, bars, from, i).book
               == (if Squares(k, bars, i) then HandledAll(b1, k, ForceClose(e1.trade, bars[i].b.close, SquareOff), ts)
                   else b1)
  {
    OnBarHasRisk(x.eng, p, bars[i].b, bars[i].s, Allowed(k, bars, from, i));
    var (e1, evs) := OnBar(x.eng, p, bars[i].b, bars[i].s, Allowed(k, bars, from, i));
    HandledSplit(x.book.(flip := false), k, evs, ForceClose(e1.trade, bars[i].b.close, SquareOff),
        bars[i].start + k.step);
  }

  method ReplayBar(
      engine: Engine, book: Replayer, k: Session, p: Params, bars: seq<Input>, from: int, i: nat, ghost x: Replay)
    requires ValidParams(p) && i < |bars| && engine.Valid() && engine.p == p && book.k == k
    requires engine.View() == x.eng && book.View() == x.book
    modifies engine, book
    ensures engine.Valid()
    ensures engine.View() == Stepped(x, k, p, bars, from, i).eng
    ensures book.View() == Stepped(x, k, p, bars, from, i).book
  {
    var bar := bars[i];
    var ts := bar.start + k.step;
    var trading := Day(bar.start) >= from;
    var lastOfDay := i + 1 == |bars| || Day(bars[i + 1].start) != Day(bar.start);
    var allowed := trading && !lastOfDay && EntriesAllowed(k.rules, ts);
    SteppedInTwo(x, k, p, bars, from, i);
    FeedBar(engine, book, bar, ts, allowed);
    if SquareOffDue(k.rules, ts) || lastOfDay {
      CloseBar(engine, book, bar.b.close, ts);
    }
  }

  method FeedBar(engine: Engine, book: Replayer, bar: Input, ts: int, allowed: bool)
    requires engine.Valid()
    modifies engine, book
    ensures engine.Valid()
    ensures var (e1, evs) := OnBar(old(engine.View()), engine.p, bar.b, bar.s, allowed);
            engine.View() == e1 && book.View() == HandledAll(old(book.View()).(flip := false), book.k, evs, ts)
  {
    book.flip := false;
    var evs := engine.Feed(bar.b, bar.s, allowed);
    book.HandleAll(evs, ts);
  }

  method CloseBar(engine: Engine, book: Replayer, close: real, ts: int)
    requires engine.Valid()
    modifies engine, book
    ensures engine.Valid() && engine.View() == State(old(engine.View()).barIndex, None)
    ensures book.View() == HandledAll(old(book.View()), book.k, ForceClose(old(engine.View()).trade, close, SquareOff),
            ts)
  {
    var evs := engine.ForceCloseTrade(close, SquareOff);
    book.HandleAll(evs, ts);
  }
}
