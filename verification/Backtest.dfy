/** The backtest's execution layer (`apps/kite-node/src/native_node/model_backtest.rs`): lots, fills and
    rows from the events of the trade model, next to what the live target does with the same events. */
module Backtest {
  import opened Common
  import opened Wvad
  import opened TradeLaws
  import opened Orders
  import opened Plan
  import opened SessionTimes

  /** The slot: lots, bar length, session times and costs. */
  datatype Session = Session(
    slot: Slot, step: int, rules: Rules, slip: real, cost: real, pointValue: real, brokerage: real)

  datatype Fill = Fill(lots: nat, price: real)

  datatype OpenRow = OpenRow(
    dir: int, entryTs: int, entry: real, stop: real, lotsOpen: nat, points: real, orders: nat, flipEntry: bool,
    fills: seq<Fill>)

  datatype Row = Row(
    dir: int, entryTs: int, exitTs: int, entry: real, stop: real, lots: nat, fills: seq<Fill>, reason: Reason,
    exit: real, modelR: real, points: real, orders: nat, flipEntry: bool, costs: real, net: real)

  /** The row being built, the finished rows, and a reversal exit waiting for its entry. */
  datatype Book = Book(open: Option<OpenRow>, rows: seq<Row>, flip: bool)

  // ------------------------------------------------------------------ event handling

  function RoundLots(x: real): int {
    (x + 0.5).Floor
  }

  function Least(x: int, y: int): int {
    if x < y then x else y
  }

  /** Lots that a partial of `fraction` closes. */
  function Tranche(c: Slot, fraction: real, open: nat): int {
    Least(RoundLots(InLots(fraction, c.lots)), open)
  }

  /** The price after slippage of closing at `px`. */
  function Exec(dir: int, px: real, slip: real): real {
    px - Signed(dir, slip)
  }

  /** Executed points of closing `lots` at `px`, slippage on both sides. */
  function Points(dir: int, entry: real, px: real, slip: real, lots: nat): real {
    lots as real * Signed(dir, Exec(dir, px, slip) - (entry + Signed(dir, slip)))
  }

  function RowFilled(o: OpenRow, px: real, lots: nat, k: Session): OpenRow
    requires lots <= o.lotsOpen
  {
    o.(points := o.points + Points(o.dir, o.entry, px, k.slip, lots), lotsOpen := o.lotsOpen - lots,
       orders := o.orders + 1, fills := o.fills + [Fill(lots, Exec(o.dir, px, k.slip))])
  }

  function Costs(k: Session, orders: nat): real {
    k.cost * k.pointValue * k.slot.lots as real + k.brokerage * orders as real
  }

  function Closed(o: OpenRow, ts: int, px: real, reason: Reason, r: real, k: Session): Row {
    Row(o.dir, o.entryTs, ts, o.entry, o.stop, k.slot.lots, o.fills, reason, px, r, o.points, o.orders, o.flipEntry,
        Costs(k, o.orders), o.points * k.pointValue - Costs(k, o.orders))
  }

  function Handled(book: Book, k: Session, e: Event, ts: int): Book {
    match e
    case Partial(_, _, price, fraction) =>
      if book.open.None? then book
      else
        var o := book.open.value;
        var lots := Tranche(k.slot, fraction, o.lotsOpen);
        if 0 < lots < o.lotsOpen then book.(open := Some(RowFilled(o, price, lots, k))) else book
    case Exit(_, price, reason, _, grossR, _) =>
      if book.open.None? then book
      else
        var o := RowFilled(book.open.value, price, book.open.value.lotsOpen, k);
        Book(None, book.rows + [Closed(o, ts, price, reason, grossR, k)], reason == Reversal)
    case Entry(dir, price, stop, _, _, _) =>
      Book(Some(OpenRow(dir, ts, price, stop, k.slot.lots, 0.0, if book.flip then 0 else 1, book.flip, [])),
           book.rows, false)
  }

  function HandledAll(book: Book, k: Session, es: seq<Event>, ts: int): Book
    decreases |es|
  {
    if |es| == 0 then book else HandledAll(Handled(book, k, es[0], ts), k, es[1..], ts)
  }

  // ---------------------------------------------------------------- what a row must say

  function FillLots(fs: seq<Fill>): nat {
    if |fs| == 0 then 0 else FillLots(Front(fs)) + Last(fs).lots
  }

  function RiskOf(dir: int, entry: real, stop: real): real {
    Signed(dir, entry - stop)
  }

  /** Points of `won` R with `risk` a lot. */
  function RPoints(lots: nat, risk: real, won: real): real {
    lots as real * (risk * won)
  }

  function SlipPoints(slip: real, lots: nat): real {
    2.0 * slip * lots as real
  }

  /** The lots of the partials up to `level`. */
  function PartialLots(c: Slot, level: nat): nat {
    (if level >= 1 then c.tp1Lots else 0) + (if level >= 2 then c.tp2Lots else 0)
  }

  /** A row closes every lot of the slot, its points are the model's R in points less two slippages a
      lot, and it counts one order a fill and one for an entry that was not the other half of a flip. */
  ghost predicate RowAddsUp(r: Row, k: Session) {
    var ok :=
    && r.lots == k.slot.lots == FillLots(r.fills) && 1 <= |r.fills| <= 3
    && r.points == RPoints(r.lots, RiskOf(r.dir, r.entry, r.stop), r.modelR) - SlipPoints(k.slip, r.lots)
    && r.orders == |r.fills| + (if r.flipEntry then 0 else 1);
    ok
  }

  /** The open row and the ledger of the same events. */
  ghost predicate Tracks(o: OpenRow, l: Ledger, k: Session) {
    var ok :=
    && l.Holding? && o.dir == l.dir && (o.dir == 1 || o.dir == -1) && o.entry == l.entry
    && l.risk == RiskOf(o.dir, o.entry, o.stop) && l.risk > 0.0
    && FillLots(o.fills) + o.lotsOpen == k.slot.lots && FillLots(o.fills) <= PartialLots(k.slot, l.level)
    && InLots(l.closed, k.slot.lots) == FillLots(o.fills) as real
    && o.points == RPoints(k.slot.lots, l.risk, l.won) - SlipPoints(k.slip, FillLots(o.fills))
    && |o.fills| <= l.level <= 2 && o.orders == |o.fills| + (if o.flipEntry then 0 else 1);
    ok
  }

  /** Book, ledger and live target say the same: a row is open exactly while a trade is, and holds the
      lots of the live target. */
  ghost predicate InStep(book: Book, l: Ledger, m: Aim, k: Session) {
    var ok :=
      if l.Flat? then book.open.None? && !m.ours && m.target == 0
      else
        && book.open.Some? && Tracks(book.open.value, l, k)
        && m.ours && m.target == l.dir * book.open.value.lotsOpen;
    ok
  }

  /** A partial closes its level's fraction; an entry is long or short. */
  ghost predicate Sized(e: Event, p: Params) {
    && (e.Partial? ==> 1 <= e.level <= 2 && e.fraction == LevelFraction(p, e.level))
    && (e.Entry? ==> e.dir == 1 || e.dir == -1)
  }

  // ------------------------------------------------------------------ one event

  lemma RoundExact(n: nat)
    ensures RoundLots(n as real) == n
  {
  }

  lemma FractionLots(c: Slot, p: Params, level: nat)
    requires Matches(c, p) && 1 <= level <= 2
    ensures InLots(LevelFraction(p, level), c.lots) == LevelLots(c, level) as real
  {
    FractionFacts(LevelLots(c, level), c.lots);
  }

  lemma QuotientBack(x: real, y: real)
    requires y != 0.0
    ensures x / y * y == x
  {
  }

  lemma PointsSplit(dir: int, entry: real, px: real, slip: real, lots: nat)
    requires dir == 1 || dir == -1
    ensures Points(dir, entry, px, slip, lots) == lots as real * Signed(dir, px - entry) - SlipPoints(slip, lots)
  {
    Distribute(lots as real, Signed(dir, px - entry), 2.0 * slip);
  }

  lemma Distribute(n: real, x: real, y: real)
    ensures n * (x - y) == n * x - y * n
  {
  }

  /** Closing `lots` of the slot is winning their fraction of R. */
  lemma PointsAreR(l: Ledger, px: real, f: real, lots: nat, all: nat)
    requires l.Holding? && l.risk > 0.0 && InLots(f, all) == lots as real
    ensures RPoints(all, l.risk, Won(f, RMultiple(l.dir, l.entry, l.risk, px)))
            == lots as real * Signed(l.dir, px - l.entry)
  {
    var q := Signed(l.dir, px - l.entry);
    var r := RMultiple(l.dir, l.entry, l.risk, px);
    assert q / l.risk * l.risk == q by {
      QuotientBack(q, l.risk);
    }
    assert r == q / l.risk;
    Regroup(all as real, l.risk, f, r);
  }

  lemma Regroup(n: real, risk: real, f: real, r: real)
    ensures n * (risk * (f * r)) == (f * n) * (r * risk)
  {
    assert risk * (f * r) == f * (r * risk);
    assert n * (f * (r * risk)) == (n * f) * (r * risk);
  }

  lemma RPointsAdd(lots: nat, risk: real, x: real, y: real)
    ensures RPoints(lots, risk, x + y) == RPoints(lots, risk, x) + RPoints(lots, risk, y)
  {
    assert risk * (x + y) == risk * x + risk * y;
  }

  lemma SlipAdd(slip: real, m: nat, n: nat)
    ensures SlipPoints(slip, m + n) == SlipPoints(slip, m) + SlipPoints(slip, n)
  {
    assert (m + n) as real == m as real + n as real;
  }

  lemma ClosedAdds(closed: real, f: real, all: nat, done: nat, lots: nat)
    requires InLots(closed, all) == done as real && InLots(f, all) == lots as real
    ensures InLots(closed + f, all) == (done + lots) as real
  {
    assert (closed + f) * all as real == closed * all as real + f * all as real;
  }

  lemma PointsAdd(o: OpenRow, l: Ledger, k: Session, px: real, f: real, lots: nat)
    requires l.Holding? && l.risk > 0.0 && o.dir == l.dir && o.entry == l.entry && (o.dir == 1 || o.dir == -1)
    requires InLots(f, k.slot.lots) == lots as real
    ensures var won := Won(f, RMultiple(l.dir, l.entry, l.risk, px)); var all := k.slot.lots;
            var done := FillLots(o.fills);
            RPoints(all, l.risk, l.won) - SlipPoints(k.slip, done) + Points(o.dir, o.entry, px, k.slip, lots)
            == RPoints(all, l.risk, l.won + won) - SlipPoints(k.slip, done + lots)
  {
    PointsSplit(o.dir, o.entry, px, k.slip, lots);
    PointsAreR(l, px, f, lots, k.slot.lots);
    RPointsAdd(k.slot.lots, l.risk, l.won, Won(f, RMultiple(l.dir, l.entry, l.risk, px)));
    SlipAdd(k.slip, FillLots(o.fills), lots);
  }

  lemma FillsAdd(o: OpenRow, px: real, lots: nat, k: Session)
    requires lots <= o.lotsOpen
    ensures FillLots(RowFilled(o, px, lots, k).fills) == FillLots(o.fills) + lots
  {
    var fill := Fill(lots, Exec(o.dir, px, k.slip));
    assert Front(o.fills + [fill]) == o.fills;
  }

  /** Closing a level's lots keeps the row in step with the ledger. */
  lemma FillTracks(o: OpenRow, l: Ledger, k: Session, px: real, f: real, n: nat, l2: Ledger)
    requires Tracks(o, l, k) && l.level < n <= 2 && LevelLots(k.slot, n) < o.lotsOpen
    requires InLots(f, k.slot.lots) == LevelLots(k.slot, n) as real
    requires l2 == Holding(l.dir, l.entry, l.risk, n, l.closed + f,
             l.won + Won(f, RMultiple(l.dir, l.entry, l.risk, px)))
    ensures Tracks(RowFilled(o, px, LevelLots(k.slot, n), k), l2, k)
  {
    var lots := LevelLots(k.slot, n);
    FillsAdd(o, px, lots, k);
    PointsAdd(o, l, k, px, f, lots);
    ClosedAdds(l.closed, f, k.slot.lots, FillLots(o.fills), lots);
  }

  lemma TrancheIs(c: Slot, p: Params, level: nat, open: nat)
    requires Matches(c, p) && 1 <= level <= 2 && LevelLots(c, level) < open
    ensures Tranche(c, LevelFraction(p, level), open) == LevelLots(c, level)
  {
    FractionLots(c, p, level);
    RoundExact(LevelLots(c, level));
  }

  /** A level not yet closed leaves at least one lot. */
  lemma LevelFits(o: OpenRow, l: Ledger, k: Session, n: nat)
    requires ValidSlot(k.slot) && Tracks(o, l, k) && l.level < n <= 2
    ensures LevelLots(k.slot, n) < o.lotsOpen
  {
  }

  lemma LevelHasLots(c: Slot, p: Params, n: nat)
    requires Matches(c, p) && 1 <= n <= 2 && LevelFraction(p, n) > 0.0
    ensures LevelLots(c, n) > 0
  {
    FractionLots(c, p, n);
    PositiveLots(LevelFraction(p, n), c.lots, LevelLots(c, n));
  }

  lemma PartialFill(book: Book, l: Ledger, k: Session, p: Params, e: Event, ts: int)
    requires Matches(k.slot, p) && book.open.Some? && Tracks(book.open.value, l, k)
    requires Sized(e, p) && e.Partial? && Post(l, e).Some?
    ensures var lots := LevelLots(k.slot, e.level);
            lots < book.open.value.lotsOpen
            && Handled(book, k, e, ts) == book.(open := Some(RowFilled(book.open.value, e.price, lots, k)))
  {
    LevelFits(book.open.value, l, k, e.level);
    LevelHasLots(k.slot, p, e.level);
    TrancheIs(k.slot, p, e.level, book.open.value.lotsOpen);
  }

  /** A partial closes exactly its level's lots, in the book and in the live target. */
  lemma PartialInStep(book: Book, l: Ledger, m: Aim, k: Session, p: Params, e: Event, ts: int)
    requires Matches(k.slot, p) && InStep(book, l, m, k) && Sized(e, p) && e.Partial? && Post(l, e).Some?
    ensures InStep(Handled(book, k, e, ts), Post(l, e).value, Applied(m, k.slot, e, true), k)
    ensures Handled(book, k, e, ts).rows == book.rows && Handled(book, k, e, ts).flip == book.flip
  {
    var o, n := book.open.value, e.level;
    PartialFill(book, l, k, p, e, ts);
    FractionLots(k.slot, p, n);
    FillTracks(o, l, k, e.price, e.fraction, n, Post(l, e).value);
    TargetShrinks(o.dir, o.lotsOpen, LevelLots(k.slot, n));
  }

  lemma PositiveLots(f: real, all: nat, lots: nat)
    requires f > 0.0 && all > 0 && InLots(f, all) == lots as real
    ensures lots > 0
  {
  }

  /** Closing the rest leaves a row that adds up. */
  lemma LastFill(o: OpenRow, l: Ledger, k: Session, px: real, f: real, reason: Reason, r: real, ts: int)
    requires Tracks(o, l, k) && l.closed + f == 1.0
    requires r == l.won + Won(f, RMultiple(l.dir, l.entry, l.risk, px))
    ensures RowAddsUp(Closed(RowFilled(o, px, o.lotsOpen, k), ts, px, reason, r, k), k)
  {
    RestFraction(l.closed, f, k.slot.lots, FillLots(o.fills), o.lotsOpen);
    FillsAdd(o, px, o.lotsOpen, k);
    PointsAdd(o, l, k, px, f, o.lotsOpen);
  }

  /** An exit closes the rest: the row adds up. */
  lemma ExitInStep(book: Book, l: Ledger, m: Aim, k: Session, e: Event, ts: int)
    requires InStep(book, l, m, k) && e.Exit? && Post(l, e).Some?
    ensures InStep(Handled(book, k, e, ts), Flat, Applied(m, k.slot, e, true), k)
    ensures Handled(book, k, e, ts).rows
            == book.rows + [Closed(RowFilled(book.open.value, e.price, book.open.value.lotsOpen, k), ts, e.price,
                e.reason, e.grossR, k)]
    ensures RowAddsUp(Last(Handled(book, k, e, ts).rows), k)
  {
    LastFill(book.open.value, l, k, e.price, e.fraction, e.reason, e.grossR, ts);
  }

  lemma RestFraction(closed: real, f: real, all: nat, done: nat, rest: nat)
    requires closed + f == 1.0 && InLots(closed, all) == done as real && done + rest == all
    ensures InLots(f, all) == rest as real
  {
    assert f == 1.0 - closed;
    assert (1.0 - closed) * all as real == all as real - closed * all as real;
  }

  lemma EntryInStep(book: Book, l: Ledger, m: Aim, k: Session, e: Event, ts: int)
    requires InStep(book, l, m, k) && e.Entry? && (e.dir == 1 || e.dir == -1) && Post(l, e).Some?
    ensures InStep(Handled(book, k, e, ts), Post(l, e).value, Applied(m, k.slot, e, true), k)
    ensures var b2 := Handled(book, k, e, ts);
            && b2.rows == book.rows && b2.open.Some? && b2.open.value.entryTs == ts
            && b2.open.value.flipEntry == book.flip && !b2.flip
  {
    var l2 := Post(l, e).value;
    assert RPoints(k.slot.lots, l2.risk, 0.0) == 0.0;
    assert SlipPoints(k.slip, 0) == 0.0 && InLots(0.0, k.slot.lots) == 0.0;
    assert l2.risk == RiskOf(e.dir, e.price, e.stop) && FillLots([]) == 0;
  }
}
