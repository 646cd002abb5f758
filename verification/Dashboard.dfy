/** Fill accounting of the run's dashboard (`apps/kite-node/src/native_node/dashboard.rs`). */
module Dashboard {
  import opened Common

  /** Trades of this run kept in the snapshot. */
  const TRADES_KEPT: nat := 80

  /** One trade row: side, average fill price and lots opened for it, lots open, points realised. */
  datatype Row = Row(dir: int, fillEntry: Option<real>, filledLots: real, openLots: real, realized: real)

  /** The accounting fields of the board. */
  datatype Account = Account(
    position: real, entryAvg: Option<real>, realized: real, trips: nat, fills: nat, rows: seq<Row>)

  function RAbs(x: real): real {
    if x < 0.0 then -x else x
  }

  /** The side of a non-zero quantity. */
  function Side(x: real): int {
    if x < 0.0 then -1 else 1
  }

  /** Points of `lots` closed at `price` against an entry at `entry` on side `dir`. */
  function Points(dir: int, entry: real, price: real, lots: real): real {
    (if dir == 1 then price - entry else entry - price) * lots
  }

  /** The newest row on side `dir`, or the number of rows. */
  function RowFor(rows: seq<Row>, dir: int): (i: nat)
    ensures i <= |rows| && (i < |rows| ==> rows[i].dir == dir)
    ensures forall j :: 0 <= j < |rows| && (i == |rows| || j > i) ==> rows[j].dir != dir
  {
    if |rows| == 0 then 0
    else if Last(rows).dir == dir then |rows| - 1
    else
      var k := RowFor(Front(rows), dir);
      if k == |rows| - 1 then |rows| else k
  }

  function WithOpen(r: Row, lots: real, price: real): Row {
    var filled := r.filledLots + lots;
    r.(filledLots := filled, fillEntry := Some(if filled == 0.0 then 0.0
        else Blend(r.fillEntry.GetOr(price), r.filledLots, price, lots, filled)), openLots := r.openLots + lots)
  }

  function WithClose(r: Row, points: real, lots: real): Row {
    r.(realized := r.realized + points, openLots := RMax(r.openLots - lots, 0.0))
  }

  /** Books lots opened on a side to that side's newest trade. */
  function BookedOpen(rows: seq<Row>, dir: int, lots: real, price: real): (r: seq<Row>)
    ensures |r| == |rows| && forall i :: 0 <= i < |rows| ==> r[i].realized == rows[i].realized
  {
    var i := RowFor(rows, dir);
    if i < |rows| then rows[i := WithOpen(rows[i], lots, price)] else rows
  }

  function BookedClose(rows: seq<Row>, dir: int, points: real, lots: real): seq<Row> {
    var i := RowFor(rows, dir);
    if i < |rows| then rows[i := WithClose(rows[i], points, lots)] else rows
  }

  /** The average entry of `held` lots at `entry` and `lots` more at `price`, `total` in all. */
  function Blend(entry: real, held: real, price: real, lots: real, total: real): real
    requires total != 0.0
  {
    (entry * held + price * lots) / total
  }

  /** A fill that opens or adds to a position. */
  function AddedTo(a: Account, qty: real, price: real): Account
    requires a.position + qty != 0.0
  {
    var after := a.position + qty;
    a.(position := after, entryAvg := Some(Blend(a.entryAvg.GetOr(price), RAbs(a.position), price, RAbs(qty),
        RAbs(after))), fills := a.fills + 1,
       rows := BookedOpen(a.rows, Side(after), RAbs(qty), price))
  }

  /** A fill that reduces, closes or flips a position. */
  function Reduced(a: Account, qty: real, price: real): Account {
    var before, after := a.position, a.position + qty;
    var closed := RMin(RAbs(qty), RAbs(before));
    var flipped := after != 0.0 && Side(after) != Side(before);
    var points := if a.entryAvg.Some? then Points(Side(before), a.entryAvg.value, price, closed) else 0.0;
    var rows := if a.entryAvg.Some? then BookedClose(a.rows, Side(before), points, closed) else a.rows;
    Account(
      after,
      if after == 0.0 then None else if flipped then Some(price) else a.entryAvg,
      a.realized + points,
      if after == 0.0 || flipped then a.trips + 1 else a.trips,
      a.fills + 1,
      if flipped then BookedOpen(rows, Side(after), RAbs(after), price) else rows)
  }

  /** `apply_fill` for a non-zero quantity. */
  function Filled(a: Account, qty: real, price: real): Account
    requires qty != 0.0
  {
    if a.position == 0.0 || Side(a.position) == Side(qty) then AddedTo(a, qty, price) else Reduced(a, qty, price)
  }

  /** `open_trade`: a new row; the oldest beyond the kept number goes. */
  function TradeOpened(a: Account, dir: int): Account {
    var rows := a.rows + [Row(dir, None, 0.0, 0.0, 0.0)];
    a.(rows := if |rows| > TRADES_KEPT then rows[|rows| - TRADES_KEPT..] else rows)
  }

  // ------------------------------------------------------------ the mutable board

  class Board {
    var position: real
    var entryAvg: Option<real>
    var realized: real
    var trips: nat
    var fills: nat
    var rows: seq<Row>

    function View(): Account
      reads this
    {
      Account(position, entryAvg, realized, trips, fills, rows)
    }

    constructor ()
      ensures View() == Account(0.0, None, 0.0, 0, 0, [])
    {
      position, entryAvg, realized, trips, fills, rows := 0.0, None, 0.0, 0, 0, [];
    }

    method FindRow(dir: int) returns (i: nat)
      ensures i == RowFor(rows, dir)
    {
      i := |rows|;
      var k := |rows|;
      while k > 0
        invariant 0 <= k <= |rows|
        invariant RowFor(rows, dir) == if RowFor(rows[..k], dir) == k then |rows| else RowFor(rows[..k], dir)
      {
        k := k - 1;
        assert Front(rows[..k + 1]) == rows[..k] && Last(rows[..k + 1]) == rows[k];
        if rows[k].dir == dir {
          return k;
        }
      }
    }

    method BookOpen(dir: int, lots: real, price: real)
      modifies this`rows
      ensures rows == BookedOpen(old(rows), dir, lots, price)
    {
      var i := FindRow(dir);
      if i < |rows| {
        rows := rows[i := WithOpen(rows[i], lots, price)];
      }
    }

    method BookClose(dir: int, points: real, lots: real)
      modifies this`rows
      ensures rows == BookedClose(old(rows), dir, points, lots)
    {
      var i := FindRow(dir);
      if i < |rows| {
        rows := rows[i := WithClose(rows[i], points, lots)];
      }
    }

    method ApplyFill(qty: real, price: real)
      requires qty != 0.0
      modifies this
      ensures View() == Filled(old(View()), qty, price)
    {
      if position == 0.0 || Side(position) == Side(qty) {
        AddTo(qty, price);
      } else {
        Reduce(qty, price);
      }
    }

    /** A fill that opens or adds. */
    method AddTo(qty: real, price: real)
      requires position + qty != 0.0
      modifies this
      ensures View() == AddedTo(old(View()), qty, price)
    {
      fills := fills + 1;
      var before := position;
      var after := before + qty;
      entryAvg := Some(Blend(entryAvg.GetOr(price), RAbs(before), price, RAbs(qty), RAbs(after)));
      BookOpen(Side(after), RAbs(qty), price);
      position := after;
    }

    /** A fill that reduces, closes or flips. */
    method Reduce(qty: real, price: real)
      modifies this
      ensures View() == Reduced(old(View()), qty, price)
    {
      fills := fills + 1;
      var before := position;
      var after := before + qty;
      var closed := RMin(RAbs(qty), RAbs(before));
      if entryAvg.Some? {
        var points := Points(Side(before), entryAvg.value, price, closed);
        realized := realized + points;
        BookClose(Side(before), points, closed);
      }
      if after != 0.0 && Side(after) != Side(before) {
        BookOpen(Side(after), RAbs(after), price);
      }
      if after == 0.0 {
        entryAvg := None;
        trips := trips + 1;
      } else if Side(after) != Side(before) {
        entryAvg := Some(price);
        trips := trips + 1;
      }
      position := after;
    }

    method OpenTrade(dir: int)
      modifies this`rows
      ensures View() == TradeOpened(old(View()), dir)
    {
      rows := rows + [Row(dir, None, 0.0, 0.0, 0.0)];
      ghost var all := rows;
      while |rows| > TRADES_KEPT
        invariant |rows| <= |all| && rows == all[|all| - |rows|..]
        invariant |rows| == |all| || |rows| >= TRADES_KEPT
      {
        rows := rows[1..];
      }
    }
  }

  // --------------------------------------------------------------- cash identity

  /** What a reader of the fills keeps: cash paid, position, how often it returned to or crossed zero, and how
      many fills there were. */
  datatype Tape = Tape(paid: real, position: real, zeroes: nat, fills: nat)

  function Paid(t: Tape, qty: real, price: real): Tape {
    var after := t.position + qty;
    Tape(t.paid + qty * price, after,
         if t.position != 0.0 && (after == 0.0 || Side(after) != Side(t.position)) then t.zeroes + 1 else t.zeroes,
         t.fills + 1)
  }

  /** The value of the position at its average entry. */
  function AtEntry(a: Account): real {
    if a.entryAvg.Some? then a.position * a.entryAvg.value else 0.0
  }

  ghost predicate Balanced(a: Account, t: Tape) {
    && a.realized + t.paid == AtEntry(a)
    && (a.entryAvg.None? <==> a.position == 0.0)
    && a.position == t.position && a.trips == t.zeroes && a.fills == t.fills
  }

  lemma BlendPays(entry: real, held: real, price: real, lots: real, total: real)
    requires total != 0.0
    ensures total * Blend(entry, held, price, lots, total) == entry * held + price * lots
  {
    var cost := entry * held + price * lots;
    assert total * (cost / total) == cost;
  }

  /** The blended average values the whole position at what its parts cost. */
  lemma BlendValue(before: real, avg: real, qty: real, price: real)
    requires qty != 0.0 && (before == 0.0 || Side(before) == Side(qty))
    ensures (before + qty) * Blend(avg, RAbs(before), price, RAbs(qty), RAbs(before + qty))
            == before * avg + qty * price
  {
    var after := before + qty;
    var blend := Blend(avg, RAbs(before), price, RAbs(qty), RAbs(after));
    BlendPays(avg, RAbs(before), price, RAbs(qty), RAbs(after));
    if qty > 0.0 {
      assert RAbs(before) == before && RAbs(qty) == qty && RAbs(after) == after;
      assert avg * before == before * avg;
    } else {
      assert RAbs(before) == -before && RAbs(qty) == -qty && RAbs(after) == -after;
      assert avg * -before == -(before * avg);
      assert price * -qty == -(qty * price);
      assert -after * blend == -(after * blend);
    }
  }

  lemma OpenBalances(a: Account, t: Tape, qty: real, price: real)
    requires qty != 0.0 && Balanced(a, t) && (a.position == 0.0 || Side(a.position) == Side(qty))
    ensures Balanced(AddedTo(a, qty, price), Paid(t, qty, price))
  {
    BlendValue(a.position, a.entryAvg.GetOr(price), qty, price);
  }

  lemma ReduceBalances(a: Account, t: Tape, qty: real, price: real)
    requires qty != 0.0 && Balanced(a, t) && a.position != 0.0 && Side(a.position) != Side(qty)
    ensures Balanced(Reduced(a, qty, price), Paid(t, qty, price))
  {
    var before, after := a.position, a.position + qty;
    var avg := a.entryAvg.value;
    var s := Side(before) as real;
    var closed := RMin(RAbs(qty), RAbs(before));
    assert Points(Side(before), avg, price, closed) == s * closed * price - s * closed * avg;
    if after == 0.0 || Side(after) != Side(before) {
      assert s * closed == before;
      assert before * price + qty * price == after * price;
    } else {
      assert s * closed == -qty;
      assert before * avg + qty * avg == after * avg;
    }
  }

  datatype Act = Fill(qty: real, price: real) | Open(dir: int)

  ghost predicate RealFills(acts: seq<Act>) {
    forall i :: 0 <= i < |acts| ==> acts[i].Fill? ==> acts[i].qty != 0.0
  }

  function Done(acts: seq<Act>): Account
    requires RealFills(acts)
  {
    if |acts| == 0 then Account(0.0, None, 0.0, 0, 0, [])
    else Acted(Done(Front(acts)), Last(acts))
  }

  function Acted(a: Account, act: Act): Account
    requires act.Fill? ==> act.qty != 0.0
  {
    match act
    case Fill(qty, price) => Filled(a, qty, price)
    case Open(dir) => TradeOpened(a, dir)
  }

  function Taped(t: Tape, act: Act): Tape {
    match act
    case Fill(qty, price) => Paid(t, qty, price)
    case Open(_) => t
  }

  function TapeOf(acts: seq<Act>): Tape {
    if |acts| == 0 then Tape(0.0, 0.0, 0, 0)
    else Taped(TapeOf(Front(acts)), Last(acts))
  }

  lemma {:induction false} RunBalances(acts: seq<Act>)
    requires RealFills(acts)
    ensures Balanced(Done(acts), TapeOf(acts))
  {
    if |acts| > 0 {
      RunBalances(Front(acts));
      ActBalances(Done(Front(acts)), TapeOf(Front(acts)), Last(acts));
    }
  }

  lemma ActBalances(a: Account, t: Tape, act: Act)
    requires Balanced(a, t) && (act.Fill? ==> act.qty != 0.0)
    ensures Balanced(Acted(a, act), Taped(t, act))
  {
    if act.Fill? {
      FillBalances(a, t, act.qty, act.price);
    }
  }

  /** Cash identity over any sequence of non-zero fills and new trades: realised points are the cash
      received plus the position at its average entry, the average exists exactly while there is a
      position, round trips are the returns to and crossings of zero, and every fill is counted. */
  lemma {:induction false} CashIdentity(acts: seq<Act>)
    requires RealFills(acts)
    ensures Done(acts).realized == -TapeOf(acts).paid + AtEntry(Done(acts))
    ensures Done(acts).entryAvg.None? <==> Done(acts).position == 0.0
    ensures Done(acts).position == TapeOf(acts).position && Done(acts).trips == TapeOf(acts).zeroes
    ensures Done(acts).fills == TapeOf(acts).fills
  {
    RunBalances(acts);
  }

  lemma FillBalances(a: Account, t: Tape, qty: real, price: real)
    requires qty != 0.0 && Balanced(a, t)
    ensures Balanced(Filled(a, qty, price), Paid(t, qty, price))
  {
    if a.position == 0.0 || Side(a.position) == Side(qty) {
      OpenBalances(a, t, qty, price);
    } else {
      ReduceBalances(a, t, qty, price);
    }
  }

  // ------------------------------------------------------------ per-trade totals

  function RowTotal(rows: seq<Row>): real {
    if |rows| == 0 then 0.0 else RowTotal(Front(rows)) + Last(rows).realized
  }

  lemma {:induction false} RowTotalUpdate(rows: seq<Row>, i: nat, r: Row)
    requires i < |rows|
    ensures RowTotal(rows[i := r]) == RowTotal(rows) - rows[i].realized + r.realized
  {
    if i == |rows| - 1 {
      assert Front(rows[i := r]) == Front(rows);
    } else {
      assert Front(rows[i := r]) == Front(rows)[i := r];
      RowTotalUpdate(Front(rows), i, r);
    }
  }

  lemma {:induction false} RowTotalSame(a: seq<Row>, b: seq<Row>)
    requires |a| == |b| && forall i :: 0 <= i < |a| ==> a[i].realized == b[i].realized
    ensures RowTotal(a) == RowTotal(b)
  {
    if |a| > 0 {
      assert forall i :: 0 <= i < |Front(a)| ==> Front(a)[i] == a[i] && Front(b)[i] == b[i];
      RowTotalSame(Front(a), Front(b));
    }
  }

  lemma {:induction false} RowTotalSplit(a: seq<Row>, b: seq<Row>)
    ensures RowTotal(a + b) == RowTotal(a) + RowTotal(b)
  {
    if |b| == 0 {
      assert a + b == a;
    } else {
      assert Front(a + b) == a + Front(b);
      RowTotalSplit(a, Front(b));
    }
  }

  /** Points a step takes away from the rows: a reducing fill without a row on its side, or an evicted
      row's points. */
  function Lost(a: Account, act: Act): real {
    match act
    case Fill(qty, price) =>
      if a.position == 0.0 || Side(a.position) == Side(qty) || a.entryAvg.None?
          || RowFor(a.rows, Side(a.position)) < |a.rows| then 0.0
      else Points(Side(a.position), a.entryAvg.value, price, RMin(RAbs(qty), RAbs(a.position)))
    case Open(_) => if |a.rows| >= TRADES_KEPT then RowTotal(a.rows[..|a.rows| + 1 - TRADES_KEPT]) else 0.0
  }

  function LostIn(acts: seq<Act>): real
    requires RealFills(acts)
  {
    if |acts| == 0 then 0.0 else LostIn(Front(acts)) + Lost(Done(Front(acts)), Last(acts))
  }

  lemma FillRows(a: Account, qty: real, price: real)
    requires qty != 0.0
    ensures Filled(a, qty, price).realized - RowTotal(Filled(a, qty, price).rows)
            == a.realized - RowTotal(a.rows) + Lost(a, Fill(qty, price))
  {
    if a.position == 0.0 || Side(a.position) == Side(qty) {
      RowTotalSame(a.rows, BookedOpen(a.rows, Side(a.position + qty), RAbs(qty), price));
    } else {
      var closed := RMin(RAbs(qty), RAbs(a.position));
      var points := if a.entryAvg.Some? then Points(Side(a.position), a.entryAvg.value, price, closed) else 0.0;
      var rows := if a.entryAvg.Some? then BookedClose(a.rows, Side(a.position), points, closed) else a.rows;
      var i := RowFor(a.rows, Side(a.position));
      if a.entryAvg.Some? && i < |a.rows| {
        RowTotalUpdate(a.rows, i, WithClose(a.rows[i], points, closed));
      }
      RowTotalSame(rows, BookedOpen(rows, Side(a.position + qty), RAbs(a.position + qty), price));
    }
  }

  lemma OpenRows(a: Account, dir: int)
    requires |a.rows| <= TRADES_KEPT
    ensures RowTotal(TradeOpened(a, dir).rows) == RowTotal(a.rows) - Lost(a, Open(dir))
    ensures |TradeOpened(a, dir).rows| <= TRADES_KEPT
  {
    var row := Row(dir, None, 0.0, 0.0, 0.0);
    var rows := a.rows + [row];
    assert Front(rows) == a.rows;
    if |rows| > TRADES_KEPT {
      var k := |rows| - TRADES_KEPT;
      assert rows == rows[..k] + rows[k..];
      RowTotalSplit(rows[..k], rows[k..]);
      assert rows[..k] == a.rows[..k];
    }
  }

  lemma {:induction false} RowsStayFew(acts: seq<Act>)
    requires RealFills(acts)
    ensures |Done(acts).rows| <= TRADES_KEPT
  {
    if |acts| > 0 {
      RowsStayFew(Front(acts));
      if Last(acts).Open? {
        OpenRows(Done(Front(acts)), Last(acts).dir);
      }
    }
  }

  /** Per-trade points: over any sequence of steps the rows' realised points are the run's, less exactly
      what was realised without a row on its side and what evicted rows held. */
  lemma {:induction false} RowsSumToRun(acts: seq<Act>)
    requires RealFills(acts)
    ensures Done(acts).realized == RowTotal(Done(acts).rows) + LostIn(acts)
  {
    if |acts| > 0 {
      RowsSumToRun(Front(acts));
      RowsStayFew(Front(acts));
      match Last(acts)
      case Fill(qty, price) => FillRows(Done(Front(acts)), qty, price);
      case Open(dir) => OpenRows(Done(Front(acts)), dir);
    }
  }

  /** Nothing is lost while every reducing fill finds a row on its side and no row is evicted. */
  ghost predicate Attributed(acts: seq<Act>)
    requires RealFills(acts)
  {
    forall n :: 0 <= n < |acts| ==>
      var a := Done(acts[..n]);
      match acts[n]
      case Fill(qty, _) => a.position == 0.0 || Side(a.position) == Side(qty)
          || RowFor(a.rows, Side(a.position)) < |a.rows|
      case Open(_) => |a.rows| < TRADES_KEPT
  }

  lemma {:induction false} AttributedLosesNothing(acts: seq<Act>)
    requires RealFills(acts) && Attributed(acts)
    ensures LostIn(acts) == 0.0 && Done(acts).realized == RowTotal(Done(acts).rows)
  {
    RowsSumToRun(acts);
    if |acts| > 0 {
      var f := Front(acts);
      forall n | 0 <= n < |f|
        ensures f[..n] == acts[..n] && f[n] == acts[n]
      {
      }
      AttributedLosesNothing(f);
      assert acts[..|acts| - 1] == f;
    }
  }
}
