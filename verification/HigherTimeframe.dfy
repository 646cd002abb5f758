/** The higher-timeframe candles of the engine (`crates/wvad/src/engine.rs`): the direction a bar is judged by
    comes from the last completed candle only. */
module HigherTimeframe {
  import opened Common

  const SESSION_OPEN: int := 9 * 3600
  const DAY: int := 24 * 3600
  const IST: int := 5 * 3600 + 1800

  datatype Bar = Bar(start: int, open: real, close: real)

  /** The candle a bar belongs to: its IST day and its place in the day, counted from 09:00. */
  datatype Key = Key(day: int, bucket: int)

  function KeyOf(b: Bar, htf: int): Key
    requires htf > 0
  {
    Key((b.start + IST) / DAY, ((b.start + IST) % DAY - SESSION_OPEN) / htf)
  }

  /** The bar reaches the end of its candle. */
  predicate Completes(b: Bar, bar: int, htf: int)
    requires htf > 0
  {
    (b.start + IST) % DAY + bar >= SESSION_OPEN + (KeyOf(b, htf).bucket + 1) * htf
  }

  datatype Building = Building(key: Key, open: real, close: real)

  datatype State = State(current: Option<Building>, done: Option<(real, real)>)

  /** `update`: the bar extends its candle or starts one, which completes the one before; then it may complete
      its own. */
  function Updated(s: State, b: Bar, bar: int, htf: int): State
    requires htf > 0
  {
    var same := s.current.Some? && s.current.value.key == KeyOf(b, htf);
    var c := if same then s.current.value.(close := b.close) else Building(KeyOf(b, htf), b.open, b.close);
    var done := if !same && s.current.Some? then Some((s.current.value.open, s.current.value.close)) else s.done;
    if Completes(b, bar, htf) then State(None, Some((c.open, c.close))) else State(Some(c), done)
  }

  /** 1 for a rising candle, -1 for a falling one; none before the first is complete. */
  function DirectionOf(done: Option<(real, real)>): Option<int> {
    if done.None? then None
    else Some(if done.value.1 > done.value.0 then 1 else if done.value.1 < done.value.0 then -1 else 0)
  }

  class HtfCandles {
    const bar: int
    const htf: int
    var current: Option<Building>
    var done: Option<(real, real)>

    function View(): State
      reads this
    {
      State(current, done)
    }

    constructor (bar: int, htf: int)
      ensures this.bar == bar && this.htf == htf && View() == State(None, None)
    {
      this.bar, this.htf := bar, htf;
      this.current, this.done := None, None;
    }

    method Update(b: Bar)
      requires htf > 0
      modifies this
      ensures View() == Updated(old(View()), b, bar, htf)
    {
      var sod := (b.start + IST) % DAY;
      var bucket := (sod - SESSION_OPEN) / htf;
      var key := Key((b.start + IST) / DAY, bucket);
      if current.Some? && current.value.key == key {
        current := Some(current.value.(close := b.close));
      } else {
        if current.Some? {
          done := Some((current.value.open, current.value.close));
        }
        current := Some(Building(key, b.open, b.close));
      }
      if sod + bar >= SESSION_OPEN + (bucket + 1) * htf {
        done := Some((current.value.open, current.value.close));
        current := None;
      }
    }

    method Direction() returns (d: Option<int>)
      ensures d == DirectionOf(done)
    {
      d := DirectionOf(done);
    }
  }

  // -------------------------------------------------------------- what is completed

  /** A bar that starts at or after the grid time `g` of its IST day, counted from 09:00 in steps of `htf`, and
      before the next one belongs to the candle of `g`, and completes it exactly when it ends at or after the
      next one. */
  lemma CandlesAreOnTheGrid(b: Bar, bar: int, htf: int, n: int)
    requires htf > 0
    requires var time, g := (b.start + 19800) % 86400, 32400 + n * htf; g <= time < g + htf
    ensures KeyOf(b, htf) == Key((b.start + 19800) / 86400, n)
    ensures Completes(b, bar, htf) <==> (b.start + 19800) % 86400 + bar >= 32400 + (n + 1) * htf
  {
    var z := (b.start + 19800) % 86400 - 32400;
    assert z == htf * (z / htf) + z % htf && n * htf == htf * n;
    Quotient(z / htf, n, htf, z % htf, z - n * htf);
    assert (n + 1) * htf == n * htf + htf;
  }

  lemma Quotient(q: int, n: int, d: int, r: int, s: int)
    requires d > 0 && 0 <= r < d && 0 <= s < d && d * q + r == d * n + s
    ensures q == n
  {
    assert d * (n + 1) == d * n + d && d * (q + 1) == d * q + d;
    MulLess(q, n + 1, d);
    MulLess(n, q + 1, d);
  }

  function StateAfter(bs: seq<Bar>, bar: int, htf: int): State
    requires htf > 0
  {
    if |bs| == 0 then State(None, None) else Updated(StateAfter(Front(bs), bar, htf), Last(bs), bar, htf)
  }

  /** Bars one after the other: none starts before the one before it ends. */
  ghost predicate InSequence(bs: seq<Bar>, bar: int) {
    forall i, j :: 0 <= i < j < |bs| ==> bs[i].start + bar <= bs[j].start
  }

  /** Keys in time order. */
  predicate NotAfter(a: Key, b: Key) {
    a.day < b.day || (a.day == b.day && a.bucket <= b.bucket)
  }

  lemma KeysRise(a: Bar, b: Bar, htf: int)
    requires htf > 0 && a.start <= b.start
    ensures NotAfter(KeyOf(a, htf), KeyOf(b, htf))
  {
    var x, y := a.start + IST, b.start + IST;
    if x / DAY == y / DAY {
      DivMono(x % DAY - SESSION_OPEN, y % DAY - SESSION_OPEN, htf);
    }
  }

  lemma DivMono(x: int, y: int, d: int)
    requires d > 0 && x <= y
    ensures x / d <= y / d
  {
    assert y == d * (y / d) + y % d && x == d * (x / d) + x % d;
    assert d * (y / d + 1) == d * (y / d) + d;
    MulLess(x / d, y / d + 1, d);
  }

  lemma MulLess(a: int, b: int, d: int)
    requires d > 0 && d * a < d * b
    ensures a < b
  {
  }

  ghost predicate HasKey(bs: seq<Bar>, k: Key, htf: int)
    requires htf > 0
  {
    exists i :: 0 <= i < |bs| && KeyOf(bs[i], htf) == k
  }

  /** The open of the first bar of candle `k`. */
  ghost function OpenOf(bs: seq<Bar>, k: Key, htf: int): real
    requires htf > 0
  {
    if |bs| == 0 then 0.0
    else if HasKey(Front(bs), k, htf) then OpenOf(Front(bs), k, htf)
    else if KeyOf(Last(bs), htf) == k then Last(bs).open else 0.0
  }

  /** The close of its last bar. */
  function CloseOf(bs: seq<Bar>, k: Key, htf: int): real
    requires htf > 0
  {
    if |bs| == 0 then 0.0 else if KeyOf(Last(bs), htf) == k then Last(bs).close else CloseOf(Front(bs), k, htf)
  }

  /** The candle before that of the last bar. */
  function Before(bs: seq<Bar>, htf: int): Option<Key>
    requires htf > 0
  {
    if |bs| <= 1 then None
    else if KeyOf(Last(Front(bs)), htf) == KeyOf(Last(bs), htf) then Before(Front(bs), htf)
    else Some(KeyOf(Last(Front(bs)), htf))
  }

  ghost function CandleOf(bs: seq<Bar>, k: Key, htf: int): (real, real)
    requires htf > 0
  {
    (OpenOf(bs, k, htf), CloseOf(bs, k, htf))
  }

  /** The last complete candle of the bars: that of the last bar if the bar reaches its end, else the one before;
      a candle opens with its first bar and closes with its last. */
  ghost function LastComplete(bs: seq<Bar>, bar: int, htf: int): Option<(real, real)>
    requires htf > 0
  {
    if |bs| == 0 then None
    else if Completes(Last(bs), bar, htf) then Some(CandleOf(bs, KeyOf(Last(bs), htf), htf))
    else if Before(bs, htf).Some? then Some(CandleOf(bs, Before(bs, htf).value, htf))
    else None
  }

  /** The candle being built. */
  ghost function Unfinished(bs: seq<Bar>, bar: int, htf: int): Option<Building>
    requires htf > 0
  {
    if |bs| == 0 || Completes(Last(bs), bar, htf) then None
    else
      var k := KeyOf(Last(bs), htf);
      Some(Building(k, OpenOf(bs, k, htf), Last(bs).close))
  }

  lemma {:induction false} CandleMore(f: seq<Bar>, b: Bar, k: Key, htf: int)
    requires htf > 0
    ensures OpenOf(f + [b], k, htf)
            == if HasKey(f, k, htf) then OpenOf(f, k, htf) else if KeyOf(b, htf) == k then b.open else 0.0
    ensures CloseOf(f + [b], k, htf) == if KeyOf(b, htf) == k then b.close else CloseOf(f, k, htf)
    ensures |f| > 0 ==> Before(f + [b], htf)
                        == if KeyOf(Last(f), htf) == KeyOf(b, htf) then Before(f, htf) else Some(KeyOf(Last(f), htf))
  {
    assert Front(f + [b]) == f;
  }

  /** A new candle has not occurred before. */
  lemma NewKey(f: seq<Bar>, b: Bar, bar: int, htf: int)
    requires htf > 0 && bar >= 0 && |f| > 0 && InSequence(f + [b], bar) && KeyOf(b, htf) != KeyOf(Last(f), htf)
    ensures !HasKey(f, KeyOf(b, htf), htf)
  {
    var all := f + [b];
    forall i | 0 <= i < |f|
      ensures KeyOf(f[i], htf) != KeyOf(b, htf)
    {
      assert all[i] == f[i] && all[|f| - 1] == Last(f) && all[|f|] == b;
      assert i < |f| - 1 ==> all[i].start + bar <= all[|f| - 1].start;
      KeysRise(f[i], Last(f), htf);
      KeysRise(Last(f), b, htf);
    }
  }

  /** A bar of the same candle means that the one before did not reach the end. */
  lemma SameKeyGoesOn(a: Bar, b: Bar, bar: int, htf: int)
    requires htf > 0 && bar >= 0 && a.start + bar <= b.start && KeyOf(a, htf) == KeyOf(b, htf)
    ensures !Completes(a, bar, htf)
  {
    var x, y, k := a.start + IST, b.start + IST, KeyOf(b, htf).bucket;
    assert x % DAY + bar <= y % DAY;
    var z := y % DAY - SESSION_OPEN;
    assert z == htf * (z / htf) + z % htf && (k + 1) * htf == htf * k + htf;
  }

  ghost predicate Tells(bs: seq<Bar>, bar: int, htf: int, s: State)
    requires htf > 0
  {
    s == State(Unfinished(bs, bar, htf), LastComplete(bs, bar, htf))
  }

  lemma {:induction false} BarTells(f: seq<Bar>, b: Bar, bar: int, htf: int, s: State)
    requires htf > 0 && bar >= 0 && InSequence(f + [b], bar) && Tells(f, bar, htf, s)
    ensures Tells(f + [b], bar, htf, Updated(s, b, bar, htf))
  {
    var all, k := f + [b], KeyOf(b, htf);
    assert Last(all) == b;
    CandleMore(f, b, k, htf);
    if |f| == 0 {
      assert all == [b] && !HasKey(f, k, htf);
    } else {
      var l, q := Last(f), KeyOf(Last(f), htf);
      assert all[|f| - 1] == l && all[|f|] == b;
      if q == k {
        SameKeyGoesOn(l, b, bar, htf);
        assert HasKey(f, k, htf);
        if Before(f, htf).Some? {
          BeforeDiffers(f, htf);
          CandleMore(f, b, Before(f, htf).value, htf);
          BeforeHas(f, htf);
        }
      } else {
        NewKey(f, b, bar, htf);
        CandleMore(f, b, q, htf);
        assert HasKey(f, q, htf) && CloseOf(f, q, htf) == l.close;
      }
    }
  }

  lemma {:induction false} BeforeDiffers(bs: seq<Bar>, htf: int)
    requires htf > 0 && |bs| > 0 && Before(bs, htf).Some?
    ensures Before(bs, htf).value != KeyOf(Last(bs), htf)
  {
    if KeyOf(Last(Front(bs)), htf) == KeyOf(Last(bs), htf) {
      BeforeDiffers(Front(bs), htf);
    }
  }

  lemma {:induction false} BeforeHas(bs: seq<Bar>, htf: int)
    requires htf > 0 && |bs| > 0 && Before(bs, htf).Some?
    ensures HasKey(bs, Before(bs, htf).value, htf)
  {
    var f := Front(bs);
    if KeyOf(Last(f), htf) == KeyOf(Last(bs), htf) {
      BeforeHas(f, htf);
      var i :| 0 <= i < |f| && KeyOf(f[i], htf) == Before(bs, htf).value;
      assert bs[i] == f[i];
    } else {
      assert bs[|bs| - 2] == Last(f);
    }
  }

  /** The direction never looks ahead: over any bars one after the other, `done` is exactly the last complete
      candle, and what is being built is the candle of the last bar. */
  lemma {:induction false} DoneIsLastComplete(bs: seq<Bar>, bar: int, htf: int)
    requires htf > 0 && bar >= 0 && InSequence(bs, bar)
    ensures StateAfter(bs, bar, htf).done == LastComplete(bs, bar, htf)
    ensures StateAfter(bs, bar, htf).current == Unfinished(bs, bar, htf)
    ensures var d, c := DirectionOf(StateAfter(bs, bar, htf).done), LastComplete(bs, bar, htf);
            && (d == Some(1) <==> c.Some? && c.value.0 < c.value.1)
            && (d == Some(-1) <==> c.Some? && c.value.0 > c.value.1)
  {
    if |bs| > 0 {
      var f := Front(bs);
      assert InSequence(f, bar) by {
        assert forall i :: 0 <= i < |f| ==> f[i] == bs[i];
      }
      DoneIsLastComplete(f, bar, htf);
      assert f + [Last(bs)] == bs;
      BarTells(f, Last(bs), bar, htf, StateAfter(f, bar, htf));
    }
  }
}
