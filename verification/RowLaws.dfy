/** What the rows of a backtest say: what was paid for them, and when a position may be held. */
module RowLaws {
  import opened Common
  import opened Wvad
  import opened TradeLaws
  import opened Orders
  import opened Plan
  import opened Backtest
  import opened BacktestRuns
  import opened SessionTimes
  import opened SignalLaws

  // -------------------------------------------------------------------- what a row pays

  /** Points of the fills of a trade that executed its entry at `entry`. */
  function FillPoints(fills: seq<Fill>, dir: int, entry: real): real {
    if |fills| == 0 then 0.0
    else FillPoints(Front(fills), dir, entry) + Last(fills).lots as real * Signed(dir, Last(fills).price - entry)
  }

  /** The entry after slippage: a long buys dearer, a short sells cheaper. */
  function Entered(dir: int, entry: real, slip: real): real {
    if dir == 1 then entry + slip else entry - slip
  }

  /** A row's points are those of its executed fills, the last of which is its exit after slippage; its costs are
      the round trip of every lot and the brokerage of every order; its net is what is left. */
  ghost predicate RowPays(r: Row, k: Session) {
    && r.points == FillPoints(r.fills, r.dir, Entered(r.dir, r.entry, k.slip))
    && |r.fills| > 0 && Last(r.fills).price == (if r.dir == 1 then r.exit - k.slip else r.exit + k.slip)
    && r.costs == k.cost * k.pointValue * k.slot.lots as real + k.brokerage * r.orders as real
    && r.net == r.points * k.pointValue - r.costs
  }

  ghost predicate OpenPays(o: OpenRow, k: Session) {
    o.points == FillPoints(o.fills, o.dir, Entered(o.dir, o.entry, k.slip))
  }

  ghost predicate AllPay(rows: seq<Row>, k: Session) {
    forall i :: 0 <= i < |rows| ==> RowPays(rows[i], k)
  }

  ghost predicate BookPays(book: Book, k: Session) {
    AllPay(book.rows, k) && (book.open.Some? ==> OpenPays(book.open.value, k))
  }

  lemma {:induction false} FillPointsMore(fills: seq<Fill>, f: Fill, dir: int, entry: real)
    ensures FillPoints(fills + [f], dir, entry)
            == FillPoints(fills, dir, entry) + f.lots as real * Signed(dir, f.price - entry)
  {
    assert Front(fills + [f]) == fills;
  }

  lemma FillPays(o: OpenRow, px: real, lots: nat, k: Session)
    requires OpenPays(o, k) && lots <= o.lotsOpen
    ensures OpenPays(RowFilled(o, px, lots, k), k)
    ensures Last(RowFilled(o, px, lots, k).fills) == Fill(lots, if o.dir == 1 then px - k.slip else px + k.slip)
  {
    var f := Fill(lots, Exec(o.dir, px, k.slip));
    FillPointsMore(o.fills, f, o.dir, Entered(o.dir, o.entry, k.slip));
    assert o.entry + Signed(o.dir, k.slip) == Entered(o.dir, o.entry, k.slip);
  }

  lemma HandledPays(book: Book, k: Session, e: Event, ts: int)
    requires BookPays(book, k)
    ensures BookPays(Handled(book, k, e, ts), k)
  {
    if book.open.Some? && !e.Entry? {
      var o := book.open.value;
      if e.Exit? {
        FillPays(o, e.price, o.lotsOpen, k);
      } else if 0 < Tranche(k.slot, e.fraction, o.lotsOpen) < o.lotsOpen {
        FillPays(o, e.price, Tranche(k.slot, e.fraction, o.lotsOpen), k);
      }
    }
  }

  lemma {:induction false} AllHandledPay(book: Book, k: Session, es: seq<Event>, ts: int)
    requires BookPays(book, k)
    ensures BookPays(HandledAll(book, k, es, ts), k)
    decreases |es|
  {
    if |es| > 0 {
      HandledPays(book, k, es[0], ts);
      AllHandledPay(Handled(book, k, es[0], ts), k, es[1..], ts);
    }
  }

  lemma {:induction false} RunToStep(
      k: Session, p: Params, bars: seq<Input>, from: int, n: nat) returns (x: Replay, y: Replay)
    requires ValidParams(p) && 0 < n <= |bars|
    ensures x == RunTo(k, p, bars, from, n - 1) && y == RunTo(k, p, bars, from, n)
    ensures (x.eng.trade.Some? ==> x.eng.trade.value.risk > 0.0) && y == Advanced(x, k, p, bars, from, n - 1)
  {
    x, y := RunTo(k, p, bars, from, n - 1), RunTo(k, p, bars, from, n);
  }

  lemma {:induction false} EngineKeeps(k: Session, p: Params, bars: seq<Input>, from: int, n: nat)
    requires ValidParams(p) && n <= |bars|
    ensures TradeLaws.Inv(RunTo(k, p, bars, from, n).eng, p)
  {
    if n > 0 {
      EngineKeeps(k, p, bars, from, n - 1);
      var x, y := RunToStep(k, p, bars, from, n);
      EngineStep(x, y, k, p, bars, from, n - 1);
    }
  }

  lemma EngineStep(x: Replay, y: Replay, k: Session, p: Params, bars: seq<Input>, from: int, i: nat)
    requires ValidParams(p) && i < |bars| && (x.eng.trade.Some? ==> x.eng.trade.value.risk > 0.0)
             && y == Advanced(x, k, p, bars, from, i)
    requires TradeLaws.Inv(x.eng, p)
    ensures TradeLaws.Inv(y.eng, p)
  {
    AdvancedIs(x, k, p, bars, from, i);
    BarPosts(x.eng, p, bars[i].b, bars[i].s, Allowed(k, bars, from, i));
  }

  lemma EventsSquare(eng: State, k: Session, p: Params, bars: seq<Input>, from: int, n: nat)
    requires ValidParams(p) && TradeLaws.Inv(eng, p) && n < |bars|
    ensures NoSquareOffs(BarEvents(eng, k, p, bars, from, n).1) || EndsDay(k, bars, n)
  {
    BarNeverSquares(eng, p, bars[n].b, bars[n].s, Allowed(k, bars, from, n));
  }

  lemma {:induction false} BookStep(x: Replay, k: Session, p: Params, bars: seq<Input>, from: int, i: nat)
    requires ValidParams(p) && i < |bars| && (x.eng.trade.Some? ==> x.eng.trade.value.risk > 0.0)
    ensures Advanced(x, k, p, bars, from, i).book
            == HandledAll(x.book.(flip := false), k, BarEvents(x.eng, k, p, bars, from, i).1, bars[i].start + k.step)
  {
    AdvancedIs(x, k, p, bars, from, i);
  }

  lemma StepPays(x: Replay, y: Replay, k: Session, p: Params, bars: seq<Input>, from: int, i: nat)
    requires ValidParams(p) && i < |bars| && (x.eng.trade.Some? ==> x.eng.trade.value.risk > 0.0)
             && y == Advanced(x, k, p, bars, from, i)
    requires BookPays(x.book, k)
    ensures BookPays(y.book, k)
  {
    BookStep(x, k, p, bars, from, i);
    AllHandledPay(x.book.(flip := false), k, BarEvents(x.eng, k, p, bars, from, i).1, bars[i].start + k.step);
  }

  lemma {:induction false} RunPays(k: Session, p: Params, bars: seq<Input>, from: int, n: nat)
    requires ValidParams(p) && n <= |bars|
    ensures BookPays(RunTo(k, p, bars, from, n).book, k)
  {
    if n > 0 {
      RunPays(k, p, bars, from, n - 1);
      var x, y := RunToStep(k, p, bars, from, n);
      StepPays(x, y, k, p, bars, from, n - 1);
    }
  }

  function TotalPoints(rows: seq<Row>): real {
    if |rows| == 0 then 0.0 else TotalPoints(Front(rows)) + Last(rows).points
  }

  function TotalNet(rows: seq<Row>): real {
    if |rows| == 0 then 0.0 else TotalNet(Front(rows)) + Last(rows).net
  }

  /** The net result of the rows: what their points are worth, less a round trip for every lot of every row and
      the brokerage of every order. */
  ghost predicate NetIs(rows: seq<Row>, k: Session) {
    var ok :=
      TotalNet(rows) == TotalPoints(rows) * k.pointValue - k.cost * k.pointValue * k.slot.lots as real * |rows| as real
                        - k.brokerage * TotalOrders(rows) as real;
    ok
  }

  lemma {:induction false} NetAddsUp(rows: seq<Row>, k: Session)
    requires AllPay(rows, k)
    ensures NetIs(rows, k)
  {
    if |rows| > 0 {
      var f, r := Front(rows), Last(rows);
      assert forall i :: 0 <= i < |f| ==> f[i] == rows[i];
      assert RowPays(rows[|rows| - 1], k);
      NetAddsUp(f, k);
      OneMoreNet(TotalPoints(f), r.points, k.pointValue, k.cost * k.pointValue * k.slot.lots as real, |f|,
                 k.brokerage, TotalOrders(f), r.orders);
    }
  }

  lemma OneMoreNet(x: real, y: real, pv: real, cost: real, n: nat, fee: real, orders: nat, more: nat)
    ensures (x * pv - cost * n as real - fee * orders as real) + (y * pv - (cost + fee * more as real))
            == (x + y) * pv - cost * (n + 1) as real - fee * (orders + more) as real
  {
  }

  lemma {:induction false} BookNet(book: Book, k: Session)
    requires BookPays(book, k)
    ensures AllPay(book.rows, k) && NetIs(book.rows, k)
  {
    NetAddsUp(book.rows, k);
  }

  /** What a whole replay pays: every row pays for its fills, its lots and its orders, and the net result is the
      points' value less a round trip for every lot of every row and the brokerage of every order. */
  lemma {:induction false} EveryRowPays(k: Session, p: Params, bars: seq<Input>, from: int)
    requires ValidParams(p)
    ensures var rows := RunTo(k, p, bars, from, |bars|).book.rows; AllPay(rows, k) && NetIs(rows, k)
  {
    RunPays(k, p, bars, from, |bars|);
    BookNet(RunTo(k, p, bars, from, |bars|).book, k);
  }

  // ------------------------------------------------------------ when a position is held

  /** The second of the IST day at which bar `i` closes. */
  function CloseTime(k: Session, bars: seq<Input>, i: nat): int
    requires i < |bars|
  {
    (bars[i].start + k.step + 5 * 3600 + 1800) % (24 * 3600)
  }

  function DayOfBar(bars: seq<Input>, i: nat): int
    requires i < |bars|
  {
    (bars[i].start + 5 * 3600 + 1800) / (24 * 3600)
  }

  /** Bar `i` ends the day's trading: it closes at or after the square-off time or is the day's last. */
  predicate EndsDay(k: Session, bars: seq<Input>, i: nat)
    requires i < |bars|
  {
    CloseTime(k, bars, i) >= k.rules.squareOff || i + 1 == |bars| || DayOfBar(bars, i + 1) != DayOfBar(bars, i)
  }

  /** Nothing is held past a bar that ends the day: neither in the book nor in the engine nor live. */
  lemma {:induction false} NothingHeldPastTheDay(k: Session, p: Params, bars: seq<Input>, from: int, n: nat)
    requires ValidParams(p) && Matches(k.slot, p) && 0 < n <= |bars| && EndsDay(k, bars, n - 1)
    ensures var x := RunTo(k, p, bars, from, n);
            x.book.open.None? && x.eng.trade.None? && x.aim.target == 0 && !x.aim.ours
  {
    NothingAfterSquare(RunTo(k, p, bars, from, n - 1), k, p, bars, from, n - 1);
    ReplayMatchesLive(k, p, bars, from, n);
  }

  lemma NothingAfterSquare(x: Replay, k: Session, p: Params, bars: seq<Input>, from: int, i: nat)
    requires ValidParams(p) && i < |bars| && (x.eng.trade.Some? ==> x.eng.trade.value.risk > 0.0) && EndsDay(k, bars, i)
    ensures Advanced(x, k, p, bars, from, i).eng.trade.None?
  {
    AdvancedIs(x, k, p, bars, from, i);
  }

  /** A row that squares off does so on a bar that ends the day. */
  ghost predicate SquaredInTime(r: Row, k: Session, bars: seq<Input>) {
    r.reason == SquareOff ==> exists i :: 0 <= i < |bars| && r.exitTs == bars[i].start + k.step && EndsDay(k, bars, i)
  }

  ghost predicate AllSquaredInTime(rows: seq<Row>, k: Session, bars: seq<Input>) {
    forall j :: 0 <= j < |rows| ==> SquaredInTime(rows[j], k, bars)
  }

  ghost predicate NoSquareOffs(es: seq<Event>) {
    forall j :: 0 <= j < |es| ==> es[j].Exit? ==> es[j].reason != SquareOff
  }

  lemma BarNeverSquares(st: State, p: Params, b: Bar, s: Signals, allowed: bool)
    requires ValidParams(p) && TradeLaws.Inv(st, p)
    ensures NoSquareOffs(OnBar(st, p, b, s, allowed).1)
  {
    if st.trade.Some? {
      ManageNeverSquares(st.trade.value, p, b, SignalDir(p, st.barIndex, b, s, allowed));
    }
  }

  lemma ManageNeverSquares(t: Trade, p: Params, b: Bar, dir: int)
    requires ValidParams(p) && Riding(t, p)
    ensures NoSquareOffs(Manage(t, p, b, dir).1)
  {
    if !Stopped(t, b) {
      SweepPartials(t, p, b);
    }
  }

  lemma {:induction false} HandledInTime(book: Book, k: Session, es: seq<Event>, ts: int, bars: seq<Input>, i: nat)
    requires AllSquaredInTime(book.rows, k, bars) && i < |bars| && ts == bars[i].start + k.step
    requires NoSquareOffs(es) || EndsDay(k, bars, i)
    ensures AllSquaredInTime(HandledAll(book, k, es, ts).rows, k, bars)
    decreases |es|
  {
    if |es| > 0 {
      var next := Handled(book, k, es[0], ts);
      forall j | 0 <= j < |next.rows|
        ensures SquaredInTime(next.rows[j], k, bars)
      {
        if j < |book.rows| {
          assert next.rows[j] == book.rows[j];
        } else if es[0].reason == SquareOff {
          assert next.rows[j].exitTs == bars[i].start + k.step;
        }
      }
      assert NoSquareOffs(es) ==> NoSquareOffs(es[1..]) by {
        assert forall j :: 0 <= j < |es[1..]| ==> es[1..][j] == es[j + 1];
      }
      HandledInTime(next, k, es[1..], ts, bars, i);
    }
  }

  /** The engine is sound and the rows so far were squared off in time. */
  ghost predicate InTime(x: Replay, k: Session, p: Params, bars: seq<Input>) {
    var ok := TradeLaws.Inv(x.eng, p) && AllSquaredInTime(x.book.rows, k, bars);
    ok
  }

  lemma StepInTime(x: Replay, y: Replay, k: Session, p: Params, bars: seq<Input>, from: int, i: nat)
    requires ValidParams(p) && i < |bars| && (x.eng.trade.Some? ==> x.eng.trade.value.risk > 0.0)
             && y == Advanced(x, k, p, bars, from, i)
    requires InTime(x, k, p, bars)
    ensures InTime(y, k, p, bars)
  {
    EngineStep(x, y, k, p, bars, from, i);
    BookStep(x, k, p, bars, from, i);
    EventsSquare(x.eng, k, p, bars, from, i);
    HandledInTime(x.book.(flip := false), k, BarEvents(x.eng, k, p, bars, from, i).1, bars[i].start + k.step, bars, i);
  }

  lemma {:induction false} RunInTime(k: Session, p: Params, bars: seq<Input>, from: int, n: nat)
    requires ValidParams(p) && n <= |bars|
    ensures InTime(RunTo(k, p, bars, from, n), k, p, bars)
  {
    if n > 0 {
      RunInTime(k, p, bars, from, n - 1);
      var x, y := RunToStep(k, p, bars, from, n);
      StepInTime(x, y, k, p, bars, from, n - 1);
    } else {
      NothingInTime(RunTo(k, p, bars, from, 0), k, p, bars);
    }
  }

  lemma NothingInTime(x: Replay, k: Session, p: Params, bars: seq<Input>)
    requires x.eng.trade.None? && x.book.rows == []
    ensures InTime(x, k, p, bars)
  {
  }

  /** Entered on an allowed day, from 09:00 to the last entry and outside every blackout; closed on the same day. */
  ghost predicate KeepsHours(r: Row, k: Session, from: int) {
    var entered := r.entryTs + 5 * 3600 + 1800;
    var ok :=
      && 9 * 3600 <= entered % (24 * 3600) < k.rules.entriesUntil
      && (forall w :: w in k.rules.blackouts ==> entered % (24 * 3600) < w.0 || entered % (24 * 3600) >= w.1)
      && from <= (entered - k.step) / (24 * 3600) == (r.exitTs - k.step + 5 * 3600 + 1800) / (24 * 3600);
    ok
  }

  lemma TimelyKeepsHours(r: Row, k: Session, from: int)
    requires Timely(k, from, r.entryTs) && Day(r.entryTs - k.step) == Day(r.exitTs - k.step)
    ensures KeepsHours(r, k, from)
  {
  }

  lemma OkKeepsHours(rows: seq<Row>, k: Session, from: int, j: nat)
    requires RowsOk(rows, k, from) && j < |rows|
    ensures KeepsHours(rows[j], k, from)
  {
    assert RowOk(rows[j], k, from);
    TimelyKeepsHours(rows[j], k, from);
  }

  /** Every row of a whole replay keeps the session's hours, and a square-off closes it only on a bar that ends
      the day. */
  lemma {:induction false} RowsKeepHours(k: Session, p: Params, bars: seq<Input>, from: int, j: nat)
    requires ValidParams(p) && Matches(k.slot, p) && j < |RunTo(k, p, bars, from, |bars|).book.rows|
    ensures var r := RunTo(k, p, bars, from, |bars|).book.rows[j]; KeepsHours(r, k, from) && SquaredInTime(r, k, bars)
  {
    RowsAreWhole(k, p, bars, from);
    OkKeepsHours(RunTo(k, p, bars, from, |bars|).book.rows, k, from, j);
    RunInTime(k, p, bars, from, |bars|);
  }

  // ----------------------------------------------------------------- when a row opens

  /** Bar `i` may open a row: its day is traded, it is not the day's last bar, and it closes from 09:00 to the last
      entry, outside every blackout. */
  predicate MayOpen(k: Session, bars: seq<Input>, from: int, i: nat)
    requires i < |bars|
  {
    && DayOfBar(bars, i) >= from && i + 1 < |bars| && DayOfBar(bars, i + 1) == DayOfBar(bars, i)
    && 9 * 3600 <= CloseTime(k, bars, i) < k.rules.entriesUntil
    && forall w :: w in k.rules.blackouts ==> CloseTime(k, bars, i) < w.0 || CloseTime(k, bars, i) >= w.1
  }

  lemma AllowedIs(k: Session, bars: seq<Input>, from: int, i: nat)
    requires i < |bars|
    ensures Allowed(k, bars, from, i) <==> MayOpen(k, bars, from, i)
    ensures Squares(k, bars, i) <==> EndsDay(k, bars, i)
  {
  }

  lemma {:induction false} BarsAreCounted(k: Session, p: Params, bars: seq<Input>, from: int, n: nat)
    requires ValidParams(p) && n <= |bars|
    ensures RunTo(k, p, bars, from, n).eng.barIndex == n
  {
    if n > 0 {
      BarsAreCounted(k, p, bars, from, n - 1);
      var x, y := RunToStep(k, p, bars, from, n);
      StepCounts(x, k, p, bars, from, n - 1);
    }
  }

  lemma StepCounts(x: Replay, k: Session, p: Params, bars: seq<Input>, from: int, i: nat)
    requires ValidParams(p) && i < |bars| && (x.eng.trade.Some? ==> x.eng.trade.value.risk > 0.0)
    ensures Advanced(x, k, p, bars, from, i).eng.barIndex == x.eng.barIndex + 1
  {
    AdvancedIs(x, k, p, bars, from, i);
  }

  /** A crossover to side `dir` that bar `n` may trade. */
  predicate Tradable(k: Session, p: Params, bars: seq<Input>, from: int, n: nat, dir: int)
    requires n < |bars|
  {
    Accepted(p, n, bars[n].b, bars[n].s, MayOpen(k, bars, from, n), dir)
  }

  /** A bar from flat: all lots at its close to the crossover's side, or nothing. */
  ghost predicate OpensExactly(book: Book, b2: Book, k: Session, p: Params, bars: seq<Input>, from: int, n: nat)
    requires n < |bars|
  {
    && (forall dir :: Tradable(k, p, bars, from, n, dir) && !EndsDay(k, bars, n) ==>
          && b2.open.Some? && b2.open.value.dir == dir && b2.open.value.lotsOpen == k.slot.lots
          && b2.open.value.entry == bars[n].b.close && b2.open.value.entryTs == bars[n].start + k.step
          && b2.rows == book.rows)
    && (!Tradable(k, p, bars, from, n, 1) && !Tradable(k, p, bars, from, n, -1) ==>
          b2.open.None? && b2.rows == book.rows)
  }

  lemma {:induction false} OneEvent(book: Book, k: Session, e: Event, ts: int)
    ensures HandledAll(book, k, [e], ts) == Handled(book, k, e, ts)
  {
    assert [e][1..] == [];
  }

  lemma FlatStep(x: Replay, k: Session, p: Params, bars: seq<Input>, from: int, n: nat)
    requires ValidParams(p) && n < |bars| && x.eng == State(n, None) && x.book.open.None?
    ensures OpensExactly(x.book, Advanced(x, k, p, bars, from, n).book, k, p, bars, from, n)
  {
    var b := bars[n];
    AllowedIs(k, bars, from, n);
    FlatBar(x.eng, p, b.b, b.s, MayOpen(k, bars, from, n));
    BookStep(x, k, p, bars, from, n);
    var evs := OnBar(x.eng, p, b.b, b.s, MayOpen(k, bars, from, n)).1;
    if |evs| == 1 {
      OneEvent(x.book.(flip := false), k, evs[0], b.start + k.step);
      assert evs == [evs[0]];
    }
  }

  /** In every replay a bar from flat opens a row exactly when it may and brings an accepted crossover: to its side,
      at its close, with all lots. */
  lemma {:induction false} RowsOpenExactly(k: Session, p: Params, bars: seq<Input>, from: int, n: nat)
    requires ValidParams(p) && Matches(k.slot, p) && n < |bars| && RunTo(k, p, bars, from, n).book.open.None?
    ensures OpensExactly(RunTo(k, p, bars, from, n).book, RunTo(k, p, bars, from, n + 1).book, k, p, bars, from, n)
  {
    var x, y := RunToStep(k, p, bars, from, n + 1);
    ReplayMatchesLive(k, p, bars, from, n);
    BarsAreCounted(k, p, bars, from, n);
    FlatStep(x, k, p, bars, from, n);
  }
}
