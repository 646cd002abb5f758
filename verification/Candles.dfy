/** Live candles from WebSocket packets (`apps/kite-node/src/native_node/ws_candles.rs`). */
module Candles {
  import opened Common
  import opened Historical

  /** Milliseconds a bar stays open for late-stamped trades once its period has ended. */
  const GRACE_MS: int := 1_000

  /** A bar being built (`Current`). */
  datatype Bar = Bar(start: int, open: real, high: real, low: real, close: real, volume: nat, oi: nat, partial: bool)

  function NewBar(start: int, price: real, volume: nat, oi: nat, partial: bool): Bar {
    Bar(start, price, price, price, price, volume, oi, partial)
  }

  function Add(b: Bar, price: real, volume: nat, oi: nat): Bar {
    b.(high := RMax(b.high, price), low := RMin(b.low, price), close := price, volume := b.volume + volume, oi := oi)
  }

  /** One WebSocket snapshot. `live` says the source is not stale, `ts` is the exchange time, `tradeTs` the
      last-trade time (both epoch seconds); `price` is None when the text does not parse. */
  datatype Packet = Packet(
    live: bool, ts: Option<int>, received: int, full: bool, tradeTs: Option<int>,
    price: Option<real>, generation: int, cumulative: Option<nat>, oi: nat)

  datatype Fault =
    | StalePacket | MissingTime | OutOfOrder | StaleOrFuture | NotFull | TradeAfterPacket | UnusablePrice
    | GenerationChanged | MissingVolume | VolumeReset | PredatesWarmup

  /** The aggregator's fields as one value. */
  datatype Agg = Agg(
    step: int, closing: seq<Bar>, current: Option<Bar>, lastClose: int, started: bool,
    lastVolume: Option<nat>, generation: Option<int>, lastExchange: Option<int>, lastTrade: Option<int>,
    gap: Option<(int, int)>, carry: nat, late: nat)

  function Fresh(lastClose: int, step: int): Agg {
    Agg(step, [], None, lastClose, false, None, None, None, None, None, 0, 0)
  }

  /** When a bar may be closed (epoch ms). */
  function DueMs(start: int, step: int): int {
    (start + step) * 1_000 + GRACE_MS
  }

  /** When the trade of `p` happened; the packet time if the exchange left it out. */
  function TradeTime(p: Packet): int
    requires p.ts.Some?
  {
    p.tradeTs.GetOr(p.ts.value)
  }

  // ------------------------------------------------- the step functions, as values

  /** The checks made before any field changes, in order. */
  function Rejected(a: Agg, p: Packet): Option<Fault> {
    if !p.live then Some(StalePacket)
    else if p.ts.None? then Some(MissingTime)
    else if a.lastExchange.Some? && p.ts.value < a.lastExchange.value then Some(OutOfOrder)
    else if !(-2 <= p.received - p.ts.value <= 10) then Some(StaleOrFuture)
    else if !p.full then Some(NotFull)
    else if TradeTime(p) > p.ts.value + 2 then Some(TradeAfterPacket)
    else if p.price.None? || p.price.value <= 0.0 then Some(UnusablePrice)
    else if a.generation.Some? && a.generation.value != p.generation then Some(GenerationChanged)
    else None
  }

  /** A trade as it is put into a bar. */
  datatype Trade = Trade(ts: int, price: real, volume: nat)

  /** Index of the bar starting at `start`, or the length when there is none. */
  function Find(bars: seq<Bar>, start: int): (i: nat)
    ensures i <= |bars| && (i < |bars| ==> bars[i].start == start)
    ensures forall j :: 0 <= j < i ==> bars[j].start != start
  {
    if |bars| == 0 || bars[0].start == start then 0
    else
      var k := Find(bars[1..], start);
      assert forall j :: 1 <= j < k + 1 ==> bars[j] == bars[1..][j - 1];
      k + 1
  }

  datatype Place = Late | Closing(index: nat) | Here | Next

  /** Where a trade of bucket `b` goes. */
  function PlaceOf(a: Agg, b: int): (r: Place)
    ensures r.Closing? ==> r.index < |a.closing| && a.closing[r.index].start == b
    ensures r.Here? ==> a.current.Some? && a.current.value.start == b
  {
    if b + a.step <= a.lastClose then Late
    else if Find(a.closing, b) < |a.closing| then Closing(Find(a.closing, b))
    else if a.current.None? then Next
    else if b == a.current.value.start then Here
    else if b > a.current.value.start then Next
    else Late
  }

  /** A new trade into the open bars. */
  ghost function Book(a: Agg, t: Trade, oi: nat): Agg
    requires a.step > 0
  {
    var b := Bucket(t.ts, a.step);
    match PlaceOf(a, b)
    case Late => a.(carry := a.carry + t.volume, late := a.late + 1)
    case Closing(i) => a.(closing := a.closing[i := Add(a.closing[i], t.price, t.volume, oi)])
    case Here => a.(current := Some(Add(a.current.value, t.price, t.volume, oi)))
    case Next =>
      a.(closing := a.closing + OptSeq(a.current),
         current := Some(NewBar(b, t.price, t.volume + a.carry, oi, false)), carry := 0)
  }

  function IsNewTrade(a: Agg, p: Packet, delta: nat): bool
    requires p.ts.Some?
  {
    delta > 0 || a.lastTrade.None? || TradeTime(p) > a.lastTrade.value
  }

  function Delta(a: Agg, cumulative: nat): nat
    requires a.lastVolume.Some? ==> cumulative >= a.lastVolume.value
  {
    if a.lastVolume.Some? then cumulative - a.lastVolume.value else 0
  }

  /** The first packet: its own bar, joined part-way unless exactly on its boundary. */
  ghost function Join(a: Agg, p: Packet): (Agg, Option<Fault>)
    requires a.step > 0 && p.ts.Some? && p.price.Some?
  {
    var b := Bucket(p.ts.value, a.step);
    var a1 := a.(started := true, lastTrade := Some(TradeTime(p)));
    if b < a.lastClose then (a1, Some(PredatesWarmup))
    else
      var partial := p.ts.value > b;
      var firstFull := if partial then b + a.step else b;
      (a1.(gap := if firstFull > a.lastClose then Some((a.lastClose, firstFull)) else a.gap,
           current := Some(NewBar(b, p.price.value, 0, p.oi, partial))), None)
  }

  /** A later packet that adds `delta` to the cumulative volume. */
  ghost function Take(a: Agg, p: Packet, delta: nat): Agg
    requires a.step > 0 && p.ts.Some? && p.price.Some?
  {
    var a1 := a.(lastTrade := Some(if a.lastTrade.Some? then Max(a.lastTrade.value, TradeTime(p)) else TradeTime(p)));
    if IsNewTrade(a, p, delta) then Book(a1, Trade(TradeTime(p), p.price.value, delta), p.oi)
    else if a1.current.Some? then a1.(current := Some(a1.current.value.(oi := p.oi)))
    else a1
  }

  /** `observe`: the state after one packet and the fault that ends the run, if any. */
  ghost function AfterPacket(a: Agg, p: Packet): (Agg, Option<Fault>)
    requires a.step > 0
  {
    var f := Rejected(a, p);
    if f.Some? then (a, f)
    else
      var a1 := a.(generation := Some(p.generation));
      if p.cumulative.None? then (a1, Some(MissingVolume))
      else if a.lastVolume.Some? && p.cumulative.value < a.lastVolume.value then (a1, Some(VolumeReset))
      else
        var delta := Delta(a, p.cumulative.value);
        var a2 := a1.(lastVolume := p.cumulative, lastExchange := p.ts);
        if !a.started then Join(a2, p) else (Take(a2, p, delta), None)
  }

  /** How many bars at the front of `bars` are due at `now`. */
  function DueCount(bars: seq<Bar>, step: int, now: int): (k: nat)
    ensures k <= |bars| && (k < |bars| ==> now < DueMs(bars[k].start, step))
    ensures forall i :: 0 <= i < k ==> DueMs(bars[i].start, step) <= now
  {
    if |bars| == 0 || now < DueMs(bars[0].start, step) then 0
    else
      var k := DueCount(bars[1..], step, now);
      assert forall j :: 1 <= j < k + 1 ==> bars[j] == bars[1..][j - 1];
      k + 1
  }

  /** The end of the last bar closed, once `bars` are closed too. */
  function ClosedUpTo(lastClose: int, bars: seq<Bar>, step: int): int {
    if |bars| == 0 then lastClose else Max(ClosedUpTo(lastClose, Front(bars), step), Last(bars).start + step)
  }

  /** The bars `close_due` finishes at `now`, oldest first, part-way joined bar included. */
  function Finished(a: Agg, now: int): seq<Bar> {
    var k := DueCount(a.closing, a.step, now);
    if k == |a.closing| && a.current.Some? && now >= DueMs(a.current.value.start, a.step)
    then a.closing + [a.current.value]
    else a.closing[..k]
  }

  function AfterClock(a: Agg, now: int): Agg {
    var k := DueCount(a.closing, a.step, now);
    var done := Finished(a, now);
    a.(closing := a.closing[k..],
       current := if |done| > |a.closing| then None else a.current,
       lastClose := ClosedUpTo(a.lastClose, done, a.step))
  }

  /** The candle handed out for a finished bar; its timestamp is UTC. */
  function CandleOf(b: Bar): Candle {
    Candle(Some(Time(b.start, 0, 0)), b.open, b.high, b.low, b.close, b.volume, b.oi)
  }

  /** What `finish` hands out: every bar except one joined part-way. */
  function Published(bars: seq<Bar>): seq<Candle> {
    if |bars| == 0 then []
    else Published(Front(bars)) + (if Last(bars).partial then [] else [CandleOf(Last(bars))])
  }

  lemma PopOne(bars: seq<Bar>, k: nat)
    requires k < |bars|
    ensures bars[k..][0] == bars[k] && bars[k..][1..] == bars[k + 1..] && bars[..k] + [bars[k]] == bars[..k + 1]
  {
  }

  // -------------------------------------------------------- the mutable aggregator

  class Aggregator {
    const step: int
    var closing: seq<Bar>
    var current: Option<Bar>
    var lastClose: int
    var started: bool
    var lastVolume: Option<nat>
    var generation: Option<int>
    var lastExchange: Option<int>
    var lastTrade: Option<int>
    var gap: Option<(int, int)>
    var carry: nat
    var late: nat

    function State(): Agg
      reads this
    {
      Agg(step, closing, current, lastClose, started, lastVolume, generation, lastExchange, lastTrade, gap, carry, late)
    }

    /** `with_step`: candles of `step` seconds after the warm-up close. */
    constructor (lastClose: int, step: int)
      requires step > 0 && 86_400 % step == 0
      ensures State() == Fresh(lastClose, step)
    {
      this.step := step;
      this.closing := [];
      this.current := None;
      this.lastClose := lastClose;
      this.started := false;
      this.lastVolume := None;
      this.generation := None;
      this.lastExchange := None;
      this.lastTrade := None;
      this.gap := None;
      this.carry := 0;
      this.late := 0;
    }

    method Observe(p: Packet) returns (fault: Option<Fault>)
      requires step > 0
      modifies this
      ensures (State(), fault) == AfterPacket(old(State()), p)
    {
      if !p.live {
        return Some(StalePacket);
      }
      if p.ts.None? {
        return Some(MissingTime);
      }
      var ts := p.ts.value;
      if lastExchange.Some? && ts < lastExchange.value {
        return Some(OutOfOrder);
      }
      if !(-2 <= p.received - ts <= 10) {
        return Some(StaleOrFuture);
      }
      if !p.full {
        return Some(NotFull);
      }
      var tradeTs := p.tradeTs.GetOr(ts);
      if tradeTs > ts + 2 {
        return Some(TradeAfterPacket);
      }
      if p.price.None? || p.price.value <= 0.0 {
        return Some(UnusablePrice);
      }
      var price := p.price.value;
      if generation.Some? && generation.value != p.generation {
        return Some(GenerationChanged);
      }
      generation := Some(p.generation);
      if p.cumulative.None? {
        return Some(MissingVolume);
      }
      var cumulative := p.cumulative.value;
      var delta := 0;
      if lastVolume.Some? {
        if cumulative < lastVolume.value {
          return Some(VolumeReset);
        }
        delta := cumulative - lastVolume.value;
      }
      lastVolume := Some(cumulative);
      lastExchange := Some(ts);

      if !started {
        fault := JoinFirst(p, ts, tradeTs, price);
      } else {
        TakeLater(p, tradeTs, price, delta);
        fault := None;
      }
    }

    /** The first packet of a run. */
    method JoinFirst(p: Packet, ts: int, tradeTs: int, price: real) returns (fault: Option<Fault>)
      requires step > 0 && p.ts == Some(ts) && p.price == Some(price) && tradeTs == TradeTime(p)
      modifies this
      ensures (State(), fault) == Join(old(State()), p)
    {
      started := true;
      lastTrade := Some(tradeTs);
      var bucket := BucketOf(ts, step);
      if bucket < lastClose {
        return Some(PredatesWarmup);
      }
      var partial := ts > bucket;
      var firstFull := if partial then bucket + step else bucket;
      if firstFull > lastClose {
        gap := Some((lastClose, firstFull));
      }
      current := Some(NewBar(bucket, price, 0, p.oi, partial));
      return None;
    }

    /** A later packet: a quote refresh changes no bar, a new trade is booked. */
    method TakeLater(p: Packet, tradeTs: int, price: real, delta: nat)
      requires step > 0 && p.ts.Some? && p.price == Some(price) && tradeTs == TradeTime(p)
      modifies this
      ensures State() == Take(old(State()), p, delta)
    {
      var newTrade := delta > 0 || lastTrade.None? || tradeTs > lastTrade.value;
      lastTrade := Some(if lastTrade.Some? then Max(lastTrade.value, tradeTs) else tradeTs);
      if !newTrade {
        if current.Some? {
          current := Some(current.value.(oi := p.oi));
        }
      } else {
        BookTrade(tradeTs, price, delta, p.oi);
      }
    }

    /** A new trade goes into the bar of its trade time. */
    method BookTrade(tradeTs: int, price: real, delta: nat, oi: nat)
      requires step > 0
      modifies this
      ensures State() == Book(old(State()), Trade(tradeTs, price, delta), oi)
    {
      var bucket := BucketOf(tradeTs, step);
      if bucket + step <= lastClose {
        carry := carry + delta;
        late := late + 1;
        return;
      }
      var i := FindClosing(bucket);
      if i < |closing| {
        closing := closing[i := Add(closing[i], price, delta, oi)];
        return;
      }
      match current
      case Some(c) =>
        if c.start == bucket {
          current := Some(Add(c, price, delta, oi));
        } else if bucket > c.start {
          closing := closing + [c];
          current := None;
          StartBar(bucket, price, delta, oi);
        } else {
          carry := carry + delta;
          late := late + 1;
        }
      case None =>
        assert closing + [] == closing;
        StartBar(bucket, price, delta, oi);
    }

    method FindClosing(start: int) returns (i: nat)
      ensures i == Find(closing, start)
    {
      i := 0;
      while i < |closing| && closing[i].start != start
        invariant 0 <= i <= |closing|
        invariant Find(closing, start) == i + Find(closing[i..], start)
      {
        assert closing[i..][1..] == closing[i + 1..];
        i := i + 1;
      }
    }

    method StartBar(start: int, price: real, volume: nat, oi: nat)
      modifies this`current, this`carry
      ensures current == Some(NewBar(start, price, volume + old(carry), oi, false)) && carry == 0
    {
      var total := volume + carry;
      carry := 0;
      current := Some(NewBar(start, price, total, oi, false));
    }

    /** Closes what is due and hands it out, except a bar that misses its first trades. */
    method CloseDue(now: int) returns (out: seq<Candle>)
      modifies this
      ensures State() == AfterClock(old(State()), now)
      ensures out == Published(Finished(old(State()), now))
    {
      ghost var done;
      out, done := PopDue(now);
      if |closing| == 0 && current.Some? && now >= DueMs(current.value.start, step) {
        var c := current.value;
        current := None;
        out := FinishBar(c, out, done);
        done := done + [c];
        assert done == old(closing) + [c];
      }
      assert done == Finished(old(State()), now);
    }

    /** Finishes the waiting bars that are due. */
    method PopDue(now: int) returns (out: seq<Candle>, ghost done: seq<Bar>)
      modifies this`closing, this`lastClose
      ensures var n := DueCount(old(closing), step, now); done == old(closing)[..n] && closing == old(closing)[n..]
      ensures out == Published(done) && lastClose == ClosedUpTo(old(lastClose), done, step)
    {
      out := [];
      done := [];
      ghost var k := 0;
      ghost var n := DueCount(closing, step, now);
      while |closing| > 0 && now >= DueMs(closing[0].start, step)
        invariant 0 <= k <= n && n == DueCount(old(closing), step, now)
        invariant done == old(closing)[..k] && closing == old(closing)[k..]
        invariant out == Published(done) && lastClose == ClosedUpTo(old(lastClose), done, step)
      {
        var c := closing[0];
        PopOne(old(closing), k);
        closing := closing[1..];
        out := FinishBar(c, out, done);
        done := done + [c];
        k := k + 1;
      }
      assert k == n;
    }

    method FinishBar(c: Bar, sofar: seq<Candle>, ghost done: seq<Bar>) returns (out: seq<Candle>)
      requires sofar == Published(done)
      modifies this`lastClose
      ensures out == Published(done + [c])
      ensures lastClose == Max(old(lastClose), c.start + step)
      ensures forall l :: old(lastClose) == ClosedUpTo(l, done, step) ==> lastClose == ClosedUpTo(l, done + [c], step)
    {
      assert Front(done + [c]) == done;
      lastClose := Max(lastClose, c.start + step);
      if c.partial {
        out := sofar;
      } else {
        out := sofar + [CandleOf(c)];
      }
    }

    /** Hands the gap over and forgets it, so that at most one backfill is started. */
    method TakeGap() returns (g: Option<(int, int)>)
      modifies this`gap
      ensures g == old(gap) && gap == None
    {
      g := gap;
      gap := None;
    }
  }
}
