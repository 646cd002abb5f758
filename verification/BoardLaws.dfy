/** What the trade rows of the dashboard say: which lots they hold and what those lots cost. */
module BoardLaws {
  import opened Common
  import opened Dashboard

  // ---------------------------------------------------------------- sums over rows

  function RowSum(rows: seq<Row>, m: Row -> real): real {
    if |rows| == 0 then 0.0 else RowSum(Front(rows), m) + m(Last(rows))
  }

  lemma {:induction false} RowSumUpdate(rows: seq<Row>, m: Row -> real, i: nat, r: Row)
    requires i < |rows|
    ensures RowSum(rows[i := r], m) == RowSum(rows, m) - m(rows[i]) + m(r)
  {
    if i == |rows| - 1 {
      assert Front(rows[i := r]) == Front(rows);
    } else {
      assert Front(rows[i := r]) == Front(rows)[i := r];
      RowSumUpdate(Front(rows), m, i, r);
    }
  }

  lemma {:induction false} RowSumSplit(a: seq<Row>, b: seq<Row>, m: Row -> real)
    ensures RowSum(a + b, m) == RowSum(a, m) + RowSum(b, m)
  {
    if |b| == 0 {
      assert a + b == a;
    } else {
      assert Front(a + b) == a + Front(b);
      RowSumSplit(a, Front(b), m);
    }
  }

  /** `x` on side `dir`: a short counts negative. */
  function OnSide(dir: int, x: real): real {
    if dir == 1 then x else -x
  }

  /** The lots a row says are open. */
  function OpenOf(r: Row): real {
    OnSide(r.dir, r.openLots)
  }

  /** What the lots opened for a row cost by its average. */
  function CostOf(r: Row): real {
    OnSide(r.dir, r.filledLots * r.fillEntry.GetOr(0.0))
  }

  // ------------------------------------------------------------------ one row

  ghost predicate RowSane(r: Row) {
    && 0.0 <= r.openLots <= r.filledLots && (r.fillEntry.None? <==> r.filledLots == 0.0)
  }

  ghost predicate RowsSane(rows: seq<Row>) {
    forall i :: 0 <= i < |rows| ==> RowSane(rows[i])
  }

  /** Opening lots at a price adds them, and their cost, to the row. */
  lemma OpenAdds(r: Row, lots: real, price: real)
    requires RowSane(r) && lots > 0.0
    ensures RowSane(WithOpen(r, lots, price))
    ensures OpenOf(WithOpen(r, lots, price)) == OpenOf(r) + OnSide(r.dir, lots)
    ensures CostOf(WithOpen(r, lots, price)) == CostOf(r) + OnSide(r.dir, lots * price)
  {
    var filled := r.filledLots + lots;
    BlendPays(r.fillEntry.GetOr(price), r.filledLots, price, lots, filled);
    assert r.fillEntry.GetOr(price) * r.filledLots == r.filledLots * r.fillEntry.GetOr(0.0);
    assert price * lots == lots * price;
  }

  /** Closing lots takes them off the row, as far as it has them, and leaves what was paid. */
  lemma CloseTakes(r: Row, points: real, lots: real)
    requires RowSane(r) && lots >= 0.0
    ensures RowSane(WithClose(r, points, lots)) && CostOf(WithClose(r, points, lots)) == CostOf(r)
    ensures OpenOf(WithClose(r, points, lots)) == OpenOf(r) - OnSide(r.dir, RMin(lots, r.openLots))
  {
  }

  // --------------------------------------------------------------------- one fill

  /** Lots opened on a side without a row on it. */
  function Unopened(rows: seq<Row>, dir: int, x: real): real {
    if RowFor(rows, dir) < |rows| then 0.0 else OnSide(dir, x)
  }

  /** Lots closed on a side that its newest row does not have. */
  function Unclosed(rows: seq<Row>, dir: int, lots: real): real {
    var i := RowFor(rows, dir);
    OnSide(dir, lots - (if i < |rows| then RMin(lots, rows[i].openLots) else 0.0))
  }

  lemma {:induction false} BookedOpenAdds(rows: seq<Row>, dir: int, lots: real, price: real, cost: real)
    requires RowsSane(rows) && lots > 0.0 && cost == lots * price
    ensures RowsSane(BookedOpen(rows, dir, lots, price))
    ensures RowSum(BookedOpen(rows, dir, lots, price), OpenOf)
            == RowSum(rows, OpenOf) + OnSide(dir, lots) - Unopened(rows, dir, lots)
    ensures RowSum(BookedOpen(rows, dir, lots, price), CostOf)
            == RowSum(rows, CostOf) + OnSide(dir, cost) - Unopened(rows, dir, cost)
  {
    var i := RowFor(rows, dir);
    if i < |rows| {
      OpenAdds(rows[i], lots, price);
      RowSumUpdate(rows, OpenOf, i, WithOpen(rows[i], lots, price));
      RowSumUpdate(rows, CostOf, i, WithOpen(rows[i], lots, price));
    }
  }

  lemma {:induction false} BookedCloseTakes(rows: seq<Row>, dir: int, points: real, lots: real)
    requires RowsSane(rows) && lots >= 0.0
    ensures RowsSane(BookedClose(rows, dir, points, lots)) && |BookedClose(rows, dir, points, lots)| == |rows|
    ensures RowSum(BookedClose(rows, dir, points, lots), OpenOf)
            == RowSum(rows, OpenOf) - OnSide(dir, lots) + Unclosed(rows, dir, lots)
    ensures RowSum(BookedClose(rows, dir, points, lots), CostOf) == RowSum(rows, CostOf)
    ensures forall d :: RowFor(BookedClose(rows, dir, points, lots), d) == RowFor(rows, d)
  {
    var i := RowFor(rows, dir);
    if i < |rows| {
      CloseTakes(rows[i], points, lots);
      RowSumUpdate(rows, OpenOf, i, WithClose(rows[i], points, lots));
      RowSumUpdate(rows, CostOf, i, WithClose(rows[i], points, lots));
      forall d
        ensures RowFor(BookedClose(rows, dir, points, lots), d) == RowFor(rows, d)
      {
        SameSides(rows, BookedClose(rows, dir, points, lots), d);
      }
    }
  }

  lemma {:induction false} SameSides(a: seq<Row>, b: seq<Row>, dir: int)
    requires |a| == |b| && forall i :: 0 <= i < |a| ==> a[i].dir == b[i].dir
    ensures RowFor(a, dir) == RowFor(b, dir)
  {
  }

  /** The fill turns the position to the other side. */
  predicate Flips(a: Account, qty: real) {
    a.position != 0.0 && a.position + qty != 0.0 && Side(a.position + qty) != Side(a.position)
  }

  predicate Adds(a: Account, qty: real) {
    a.position == 0.0 || Side(a.position) == Side(qty)
  }

  /** Lots of the position that a step leaves out of the rows. */
  function LeftOut(a: Account, act: Act): real {
    match act
    case Fill(qty, _) =>
      if Adds(a, qty) then Unopened(a.rows, Side(a.position + qty), RAbs(qty))
      else
        -Unclosed(a.rows, Side(a.position), RMin(RAbs(qty), RAbs(a.position)))
        + (if Flips(a, qty) then Unopened(a.rows, Side(a.position + qty), RAbs(a.position + qty)) else 0.0)
    case Open(_) => if |a.rows| >= TRADES_KEPT then RowSum(a.rows[..|a.rows| + 1 - TRADES_KEPT], OpenOf) else 0.0
  }

  /** What `lots` cost at `price`. */
  function Cost(lots: real, price: real): real {
    lots * price
  }

  /** What a step pays to open lots: all of an adding fill, the lots on the new side of a flip. */
  function PaidToOpen(a: Account, act: Act): real {
    match act
    case Fill(qty, price) => if Adds(a, qty) then Cost(qty, price)
        else if Flips(a, qty) then Cost(a.position + qty, price) else 0.0
    case Open(_) => 0.0
  }

  /** The part of it that finds no row, and what evicted rows had paid. */
  function CostLeftOut(a: Account, act: Act): real {
    match act
    case Fill(qty, price) =>
      if Adds(a, qty) then Unopened(a.rows, Side(a.position + qty), Cost(RAbs(qty), price))
      else if Flips(a, qty) then Unopened(a.rows, Side(a.position + qty), Cost(RAbs(a.position + qty), price))
      else 0.0
    case Open(_) => if |a.rows| >= TRADES_KEPT then RowSum(a.rows[..|a.rows| + 1 - TRADES_KEPT], CostOf) else 0.0
  }

  lemma SideTimes(x: real, price: real)
    requires x != 0.0
    ensures OnSide(Side(x), RAbs(x)) == x && OnSide(Side(x), Cost(RAbs(x), price)) == Cost(x, price)
  {
  }

  /** A step moves the rows by what it opens and closes, less what it leaves out. */
  ghost predicate Books(a: Account, act: Act, b: Account) {
    var ok :=
      && RowsSane(b.rows)
      && RowSum(b.rows, OpenOf) - b.position == RowSum(a.rows, OpenOf) - a.position - LeftOut(a, act)
      && RowSum(b.rows, CostOf) == RowSum(a.rows, CostOf) + PaidToOpen(a, act) - CostLeftOut(a, act);
    ok
  }

  lemma AddBooks(a: Account, qty: real, price: real)
    requires qty != 0.0 && RowsSane(a.rows) && Adds(a, qty)
    ensures Books(a, Fill(qty, price), AddedTo(a, qty, price))
  {
    var lots := RAbs(qty);
    var cost := Cost(lots, price);
    assert Side(a.position + qty) == Side(qty);
    BookedOpenAdds(a.rows, Side(qty), lots, price, cost);
    SideTimes(qty, price);
    AddBooksAs(a, qty, price, lots, cost, Cost(qty, price), BookedOpen(a.rows, Side(qty), lots, price));
  }

  lemma {:induction false} AddBooksAs(
      a: Account, qty: real, price: real, lots: real, cost: real, paid: real, rows: seq<Row>)
    requires qty != 0.0 && Adds(a, qty) && lots == RAbs(qty) && cost == Cost(lots, price) && paid == Cost(qty, price)
    requires Side(a.position + qty) == Side(qty) && rows == BookedOpen(a.rows, Side(qty), lots, price) && RowsSane(rows)
    requires OnSide(Side(qty), lots) == qty && OnSide(Side(qty), cost) == paid
    requires RowSum(rows, OpenOf) == RowSum(a.rows, OpenOf) + OnSide(Side(qty), lots) - Unopened(a.rows, Side(qty),
             lots)
    requires RowSum(rows, CostOf) == RowSum(a.rows, CostOf) + OnSide(Side(qty), cost) - Unopened(a.rows, Side(qty),
             cost)
    ensures Books(a, Fill(qty, price), AddedTo(a, qty, price))
  {
    assert AddedTo(a, qty, price).rows == rows && AddedTo(a, qty, price).position == a.position + qty;
    assert LeftOut(a, Fill(qty, price)) == Unopened(a.rows, Side(qty), lots);
    assert PaidToOpen(a, Fill(qty, price)) == paid;
    assert CostLeftOut(a, Fill(qty, price)) == Unopened(a.rows, Side(qty), cost);
  }

  lemma ReduceBooks(a: Account, qty: real, price: real)
    requires qty != 0.0 && RowsSane(a.rows) && !Adds(a, qty) && a.entryAvg.Some?
    ensures Books(a, Fill(qty, price), Reduced(a, qty, price))
  {
    var before := a.position;
    var closed := RMin(RAbs(qty), RAbs(before));
    var points := Points(Side(before), a.entryAvg.value, price, closed);
    BookedCloseTakes(a.rows, Side(before), points, closed);
    var rows := BookedClose(a.rows, Side(before), points, closed);
    if Flips(a, qty) {
      FlipBooks(a, qty, price, rows, closed);
    } else {
      CloseBooks(a, qty, price, rows, closed);
    }
  }

  lemma {:induction false} CloseBooks(a: Account, qty: real, price: real, rows: seq<Row>, closed: real)
    requires qty != 0.0 && !Adds(a, qty) && !Flips(a, qty) && RowsSane(rows)
    requires closed == RMin(RAbs(qty), RAbs(a.position)) && Reduced(a, qty, price).rows == rows
    requires RowSum(rows, OpenOf)
             == RowSum(a.rows, OpenOf) - OnSide(Side(a.position), closed) + Unclosed(a.rows, Side(a.position), closed)
    requires RowSum(rows, CostOf) == RowSum(a.rows, CostOf)
    ensures Books(a, Fill(qty, price), Reduced(a, qty, price))
  {
    assert OnSide(Side(a.position), closed) == -qty;
    assert Reduced(a, qty, price).position == a.position + qty;
  }

  lemma {:induction false} FlipBooks(a: Account, qty: real, price: real, rows: seq<Row>, closed: real)
    requires qty != 0.0 && !Adds(a, qty) && Flips(a, qty) && RowsSane(rows)
    requires closed == RMin(RAbs(qty), RAbs(a.position))
    requires Reduced(a, qty, price).rows == BookedOpen(rows, Side(a.position + qty), RAbs(a.position + qty), price)
    requires RowSum(rows, OpenOf)
             == RowSum(a.rows, OpenOf) - OnSide(Side(a.position), closed) + Unclosed(a.rows, Side(a.position), closed)
    requires RowSum(rows, CostOf) == RowSum(a.rows, CostOf) && |rows| == |a.rows|
    requires RowFor(rows, Side(a.position + qty)) == RowFor(a.rows, Side(a.position + qty))
    ensures Books(a, Fill(qty, price), Reduced(a, qty, price))
  {
    var after := a.position + qty;
    var lots := RAbs(after);
    var cost := Cost(lots, price);
    BookedOpenAdds(rows, Side(after), lots, price, cost);
    SideTimes(after, price);
    FlipBooksAs(a, qty, price, rows, closed, after, lots, cost, Cost(after, price),
        BookedOpen(rows, Side(after), lots, price));
  }

  lemma {:induction false} FlipBooksAs(
    a: Account, qty: real, price: real, mid: seq<Row>, closed: real, after: real, lots: real, cost: real, paid: real,
    rows: seq<Row>)
    requires qty != 0.0 && !Adds(a, qty) && Flips(a, qty) && RowsSane(rows) && Reduced(a, qty, price).rows == rows
    requires closed == RMin(RAbs(qty), RAbs(a.position)) && after == a.position + qty && lots == RAbs(after)
    requires cost == Cost(lots, price) && paid == Cost(after, price)
    requires OnSide(Side(after), lots) == after && OnSide(Side(after), cost) == paid
    requires RowFor(mid, Side(after)) == RowFor(a.rows, Side(after)) && |mid| == |a.rows|
    requires RowSum(mid, OpenOf)
             == RowSum(a.rows, OpenOf) - OnSide(Side(a.position), closed) + Unclosed(a.rows, Side(a.position), closed)
    requires RowSum(mid, CostOf) == RowSum(a.rows, CostOf)
    requires RowSum(rows, OpenOf) == RowSum(mid, OpenOf) + OnSide(Side(after), lots) - Unopened(mid, Side(after), lots)
    requires RowSum(rows, CostOf) == RowSum(mid, CostOf) + OnSide(Side(after), cost) - Unopened(mid, Side(after), cost)
    ensures Books(a, Fill(qty, price), Reduced(a, qty, price))
  {
    assert OnSide(Side(a.position), closed) == a.position;
    assert Unopened(mid, Side(after), lots) == Unopened(a.rows, Side(after), lots);
    assert Unopened(mid, Side(after), cost) == Unopened(a.rows, Side(after), cost);
    assert Reduced(a, qty, price).position == after;
    assert PaidToOpen(a, Fill(qty, price)) == paid;
    assert CostLeftOut(a, Fill(qty, price)) == Unopened(a.rows, Side(after), cost);
  }

  lemma OpenBooks(a: Account, dir: int)
    requires RowsSane(a.rows) && |a.rows| <= TRADES_KEPT
    ensures Books(a, Open(dir), TradeOpened(a, dir))
  {
    var row := Row(dir, None, 0.0, 0.0, 0.0);
    var rows := a.rows + [row];
    assert Front(rows) == a.rows;
    if |rows| > TRADES_KEPT {
      var k := |rows| - TRADES_KEPT;
      assert rows == rows[..k] + rows[k..] && rows[..k] == a.rows[..k];
      RowSumSplit(rows[..k], rows[k..], OpenOf);
      RowSumSplit(rows[..k], rows[k..], CostOf);
    }
  }

  // ------------------------------------------------------------------- whole runs

  function AllLeftOut(acts: seq<Act>): real
    requires RealFills(acts)
  {
    if |acts| == 0 then 0.0 else AllLeftOut(Front(acts)) + LeftOut(Done(Front(acts)), Last(acts))
  }

  function AllPaidToOpen(acts: seq<Act>): real
    requires RealFills(acts)
  {
    if |acts| == 0 then 0.0 else AllPaidToOpen(Front(acts)) + PaidToOpen(Done(Front(acts)), Last(acts))
  }

  function AllCostLeftOut(acts: seq<Act>): real
    requires RealFills(acts)
  {
    if |acts| == 0 then 0.0 else AllCostLeftOut(Front(acts)) + CostLeftOut(Done(Front(acts)), Last(acts))
  }

  lemma ActBooks(a: Account, act: Act)
    requires RowsSane(a.rows) && |a.rows| <= TRADES_KEPT && (act.Fill? ==> act.qty != 0.0)
    requires a.entryAvg.None? <==> a.position == 0.0
    ensures Books(a, act, Acted(a, act))
  {
    match act
    case Fill(qty, price) =>
      if Adds(a, qty) {
        AddBooks(a, qty, price);
      } else {
        ReduceBooks(a, qty, price);
      }
    case Open(dir) => OpenBooks(a, dir);
  }

  /** The rows against the position, over any sequence of fills and new trades. The lots the rows show as open are
      the position less exactly what was opened without a row, closed beyond a row, or evicted; and their average
      entries value what was paid to open lots, less exactly what found no row or was evicted. No row holds more
      than was opened for it. */
  lemma {:induction false} RowsHoldThePosition(acts: seq<Act>)
    requires RealFills(acts)
    ensures RowsSane(Done(acts).rows)
    ensures Done(acts).position == RowSum(Done(acts).rows, OpenOf) + AllLeftOut(acts)
    ensures RowSum(Done(acts).rows, CostOf) == AllPaidToOpen(acts) - AllCostLeftOut(acts)
  {
    if |acts| > 0 {
      RowsHoldThePosition(Front(acts));
      RowsStayFew(Front(acts));
      CashIdentity(Front(acts));
      ActBooks(Done(Front(acts)), Last(acts));
    }
  }

  /** Every fill finds its rows with its lots, and no row is evicted. */
  predicate Fits(a: Account, act: Act) {
    match act
    case Fill(qty, _) =>
      if Adds(a, qty) then RowFor(a.rows, Side(a.position + qty)) < |a.rows|
      else
        var i := RowFor(a.rows, Side(a.position));
        && i < |a.rows| && a.rows[i].openLots >= RMin(RAbs(qty), RAbs(a.position))
        && (Flips(a, qty) ==> RowFor(a.rows, Side(a.position + qty)) < |a.rows|)
    case Open(_) => |a.rows| < TRADES_KEPT
  }

  ghost predicate AllFit(acts: seq<Act>)
    requires RealFills(acts)
  {
    forall n :: 0 <= n < |acts| ==> Fits(Done(acts[..n]), acts[n])
  }

  lemma FitLeavesNothingOut(a: Account, act: Act)
    requires Fits(a, act)
    ensures LeftOut(a, act) == 0.0 && CostLeftOut(a, act) == 0.0
  {
  }

  /** Then the rows hold exactly the position, and value exactly what was paid to open lots. */
  lemma {:induction false} FittingRowsHoldAll(acts: seq<Act>)
    requires RealFills(acts) && AllFit(acts)
    ensures AllLeftOut(acts) == 0.0 && AllCostLeftOut(acts) == 0.0
    ensures Done(acts).position == RowSum(Done(acts).rows, OpenOf)
    ensures RowSum(Done(acts).rows, CostOf) == AllPaidToOpen(acts)
  {
    RowsHoldThePosition(acts);
    if |acts| > 0 {
      var f := Front(acts);
      assert acts[..|acts| - 1] == f;
      forall n | 0 <= n < |f|
        ensures f[..n] == acts[..n] && f[n] == acts[n]
      {
      }
      FittingRowsHoldAll(f);
      FitLeavesNothingOut(Done(f), Last(acts));
    }
  }

  // --------------------------------------------------------------- which rows are kept

  /** The sides of the trades opened, oldest first. */
  function Sides(acts: seq<Act>): seq<int> {
    if |acts| == 0 then [] else Sides(Front(acts)) + (if Last(acts).Open? then [Last(acts).dir] else [])
  }

  /** The rows are those of the newest trades, in order. */
  ghost predicate Newest(rows: seq<Row>, sides: seq<int>) {
    && |rows| == (if |sides| < 80 then |sides| else 80)
    && forall i :: 0 <= i < |rows| ==> rows[i].dir == sides[|sides| - |rows| + i]
  }

  lemma {:induction false} OpenKeepsNewest(a: Account, dir: int, sides: seq<int>)
    requires Newest(a.rows, sides)
    ensures Newest(TradeOpened(a, dir).rows, sides + [dir])
  {
    var row := Row(dir, None, 0.0, 0.0, 0.0);
    var rows := a.rows + [row];
    if |rows| > TRADES_KEPT {
      assert rows[|rows| - TRADES_KEPT..] == a.rows[1..] + [row];
    }
    NewestMore(a.rows, sides, row, TradeOpened(a, dir).rows);
  }

  lemma NewestMore(rows: seq<Row>, sides: seq<int>, row: Row, more: seq<Row>)
    requires Newest(rows, sides) && more == if |rows| < 80 then rows + [row] else rows[1..] + [row]
    ensures Newest(more, sides + [row.dir])
  {
    var all := sides + [row.dir];
    forall i | 0 <= i < |more|
      ensures more[i].dir == all[|all| - |more| + i]
    {
      if i < |more| - 1 {
        var k := if |rows| < 80 then i else i + 1;
        assert more[i] == rows[k] && all[|all| - |more| + i] == sides[|sides| - |rows| + k];
      }
    }
  }

  lemma {:induction false} FillKeepsSides(a: Account, qty: real, price: real)
    requires qty != 0.0
    ensures |Filled(a, qty, price).rows| == |a.rows|
    ensures forall i :: 0 <= i < |a.rows| ==> Filled(a, qty, price).rows[i].dir == a.rows[i].dir
  {
  }

  /** Over any fills and new trades the rows are those of the last 80 trades opened, oldest first. */
  lemma {:induction false} RowsAreTheNewest(acts: seq<Act>)
    requires RealFills(acts)
    ensures Newest(Done(acts).rows, Sides(acts))
  {
    if |acts| > 0 {
      var a := Done(Front(acts));
      RowsAreTheNewest(Front(acts));
      match Last(acts)
      case Fill(qty, price) => FillKeepsSides(a, qty, price);
      case Open(dir) => OpenKeepsNewest(a, dir, Sides(Front(acts)));
    }
  }
}
