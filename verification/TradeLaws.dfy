/** Laws of the trade model: accounting of every trade, bounds on its result, and ticks that commute
    with the bar. */
module TradeLaws {
  import opened Common
  import opened Wvad

  function LevelR(p: Params, level: nat): real {
    if level == 1 then p.tp1R else if level == 2 then p.tp2R else p.tp3R
  }

  /** R won by closing the fraction of `level` at its price. */
  function Gain(p: Params, level: nat): real {
    Won(LevelFraction(p, level), LevelR(p, level))
  }

  /** The result of a trade that reaches every target. */
  function Best(p: Params): real {
    Gain(p, 1) + Gain(p, 2) + Won(1.0 - p.f1 - p.f2, p.tp3R)
  }

  /** Direction, risk, levels and stop fit together. */
  ghost predicate Shaped(t: Trade, p: Params) {
    && (t.dir == 1 || t.dir == -1) && t.risk > 0.0
    && t.initialStop == t.entry - Signed(t.dir, t.risk)
    && (forall l :: 1 <= l <= 3 ==> LevelPrice(t, l) == t.entry + Signed(t.dir, Dist(t.risk, LevelR(p, l))))
    && (t.stop != t.initialStop ==> p.stepStop && ((t.hit1 && t.stop == t.entry) || (t.hit2 && t.stop == t.tp1)))
  }

  /** Hits are prefix-closed, and what is open and won follows from them. */
  ghost predicate Counted(t: Trade, p: Params) {
    && (t.hit2 ==> t.hit1) && (t.hit3 ==> t.hit2)
    && t.remaining == 1.0 - (if t.hit1 then p.f1 else 0.0) - (if t.hit2 then p.f2 else 0.0)
    && t.grossR == (if t.hit1 then Gain(p, 1) else 0.0) + (if t.hit2 then Gain(p, 2) else 0.0)
  }

  ghost predicate Sound(t: Trade, p: Params) {
    Shaped(t, p) && Counted(t, p)
  }

  /** Every open trade between two calls: TP3 not reached, nothing ambiguous. */
  ghost predicate Riding(t: Trade, p: Params) {
    Sound(t, p) && !t.hit3 && !t.ambiguous
  }

  lemma RAt(dir: int, entry: real, risk: real, m: real)
    requires (dir == 1 || dir == -1) && risk > 0.0
    ensures RMultiple(dir, entry, risk, entry + Signed(dir, Dist(risk, m))) == m
  {
    assert Dist(risk, m) / risk == m;
  }

  lemma QuotientMono(x: real, y: real, z: real)
    requires z > 0.0 && x <= y
    ensures x / z <= y / z
  {
    assert y / z - x / z == (y - x) / z;
  }

  lemma DistMono(risk: real, x: real, y: real)
    requires risk > 0.0 && x < y
    ensures Dist(risk, x) < Dist(risk, y) && Dist(risk, 0.0) == 0.0
  {
  }

  lemma LevelPays(t: Trade, p: Params, level: nat)
    requires Shaped(t, p) && 1 <= level <= 3
    ensures RMultiple(t.dir, t.entry, t.risk, LevelPrice(t, level)) == LevelR(p, level)
  {
    RAt(t.dir, t.entry, t.risk, LevelR(p, level));
  }

  /** R grows with the price in the trade's direction. */
  lemma RMono(dir: int, entry: real, risk: real, x: real, y: real)
    requires risk > 0.0 && Signed(dir, y - x) >= 0.0
    ensures RMultiple(dir, entry, risk, x) <= RMultiple(dir, entry, risk, y)
  {
    QuotientMono(Signed(dir, x - entry), Signed(dir, y - entry), risk);
  }

  /** Hits leave the order itself alone. */
  ghost predicate SameOrder(t: Trade, u: Trade) {
    u == t.(hit1 := u.hit1, hit2 := u.hit2, hit3 := u.hit3, remaining := u.remaining, grossR := u.grossR)
  }

  lemma SameShape(t: Trade, u: Trade, p: Params)
    requires Shaped(t, p) && SameOrder(t, u) && (t.hit1 ==> u.hit1) && (t.hit2 ==> u.hit2)
    ensures Shaped(u, p)
  {
    assert forall l :: 1 <= l <= 3 ==> LevelPrice(u, l) == LevelPrice(t, l);
  }

  /** The level is reachable: the nearer targets have been hit. */
  ghost predicate Due(t: Trade, level: nat) {
    1 <= level <= 3 && (level >= 2 ==> t.hit1) && (level == 3 ==> t.hit2)
  }

  /** What hitting a new level books. */
  lemma HitBooks(t: Trade, level: nat, p: Params)
    requires ValidParams(p) && Sound(t, p) && Due(t, level) && !IsHit(t, level)
    ensures var f := LevelFraction(p, level);
            Hit(t, level, p) == (Marked(t, level).(remaining := t.remaining - f,
                grossR := t.grossR + Won(f, LevelR(p, level))),
                                 if f > 0.0 then [Partial(t.dir, level, LevelPrice(t, level), f)] else [])
  {
    LevelPays(t, p, level);
    var f := LevelFraction(p, level);
    if level < 3 && f > 0.0 {
      var m := Marked(t, level);
      assert m.remaining - f > 0.0;
      assert Clamped(f, m.remaining) == f;
      assert RMultiple(m.dir, m.entry, m.risk, LevelPrice(t, level)) == LevelR(p, level);
    } else {
      assert f == 0.0;
      assert Won(f, LevelR(p, level)) == 0.0;
    }
  }

  /** Hitting the next level keeps the account; it emits the partial, if there is one. */
  lemma HitSound(t: Trade, level: nat, p: Params)
    requires ValidParams(p) && Sound(t, p) && Due(t, level)
    ensures Sound(Hit(t, level, p).0, p) && IsHit(Hit(t, level, p).0, level) && SameOrder(t, Hit(t, level, p).0)
    ensures (t.hit1 ==> Hit(t, level, p).0.hit1) && (t.hit2 ==> Hit(t, level, p).0.hit2)
    ensures level < 3 ==> Hit(t, level, p).0.hit3 == t.hit3
    ensures IsHit(t, level) ==> Hit(t, level, p) == (t, [])
  {
    if !IsHit(t, level) {
      HitBooks(t, level, p);
      SameShape(t, Hit(t, level, p).0, p);
    }
  }

  // ------------------------------------------------------------------ the ledger

  /** What a reader of the event list knows: nothing open, or a position with the part closed so far
      and the R won with it. */
  datatype Ledger =
    | Flat
    | Holding(dir: int, entry: real, risk: real, level: nat, closed: real, won: real)

  /** The events a position allows: an entry with risk, at most TP1 then TP2, then an exit that closes
      exactly the rest and reports exactly the fraction-weighted R of all fills. */
  ghost function Post(l: Ledger, e: Event): Option<Ledger> {
    match (l, e)
    case (Flat, Entry(dir, price, stop, _, _, _)) =>
      if Signed(dir, price - stop) > 0.0 then Some(Holding(dir, price, Signed(dir, price - stop), 0, 0.0, 0.0))
          else None
    case (Holding(dir, entry, risk, level, closed, won), Partial(d, n, price, fraction)) =>
      if d == dir && level < n <= 2 && fraction > 0.0 && risk > 0.0
      then Some(Holding(dir, entry, risk, n, closed + fraction,
          won + Won(fraction, RMultiple(dir, entry, risk, price))))
      else None
    case (Holding(dir, entry, risk, level, closed, won), Exit(d, price, _, fraction, grossR, _)) =>
      if d == dir && fraction > 0.0 && closed + fraction == 1.0 && risk > 0.0
         && grossR == won + Won(fraction, RMultiple(dir, entry, risk, price))
      then Some(Flat)
      else None
    case _ => None
  }

  ghost function PostAll(l: Ledger, es: seq<Event>): Option<Ledger>
    decreases |es|
  {
    if |es| == 0 then Some(l)
    else
      var r := Post(l, es[0]);
      if r.None? then None else PostAll(r.value, es[1..])
  }

  lemma {:induction false} PostSplit(l: Ledger, a: seq<Event>, b: seq<Event>)
    ensures PostAll(l, a + b) == if PostAll(l, a).None? then None else PostAll(PostAll(l, a).value, b)
    decreases |a|
  {
    if |a| == 0 {
      assert a + b == b;
    } else {
      assert (a + b)[1..] == a[1..] + b;
      if Post(l, a[0]).Some? {
        PostSplit(Post(l, a[0]).value, a[1..], b);
      }
    }
  }

  lemma {:induction false} PostOne(l: Ledger, e: Event)
    ensures PostAll(l, [e]) == Post(l, e)
  {
  }

  /** The ledger position of a trade. */
  function Account(t: Trade, p: Params): Ledger {
    Holding(t.dir, t.entry, t.risk,
            if t.hit2 && p.f2 > 0.0 then 2 else if t.hit1 && p.f1 > 0.0 then 1 else 0,
            1.0 - t.remaining, t.grossR)
  }

  function AccountOf(trade: Option<Trade>, p: Params): Ledger {
    if trade.Some? then Account(trade.value, p) else Flat
  }

  lemma HitPosts(t: Trade, level: nat, p: Params)
    requires ValidParams(p) && Sound(t, p) && Due(t, level)
    ensures PostAll(Account(t, p), Hit(t, level, p).1) == Some(Account(Hit(t, level, p).0, p))
  {
    if !IsHit(t, level) {
      HitBooks(t, level, p);
      LevelPays(t, p, level);
      var f := LevelFraction(p, level);
      if f > 0.0 {
        PostOne(Account(t, p), Partial(t.dir, level, LevelPrice(t, level), f));
      } else {
        assert Won(f, LevelR(p, level)) == 0.0;
      }
    }
  }

  lemma {:induction false} HitRangePosts(t: Trade, from: nat, upto: nat, p: Params)
    requires ValidParams(p) && Sound(t, p) && 1 <= from && upto <= 3
    requires from <= 3 ==> Due(t, from)
    ensures var (t2, evs) := HitRange(t, from, upto, p);
            && Sound(t2, p) && PostAll(Account(t, p), evs) == Some(Account(t2, p))
            && SameOrder(t, t2) && (t.hit1 ==> t2.hit1) && (from <= upto ==> IsHit(t2, upto))
               && (upto < 3 ==> t2.hit3 == t.hit3)
    decreases 4 - from
  {
    if from <= upto {
      HitSound(t, from, p);
      HitPosts(t, from, p);
      var (t1, e1) := Hit(t, from, p);
      HitRangePosts(t1, from + 1, upto, p);
      PostSplit(Account(t, p), e1, HitRange(t1, from + 1, upto, p).1);
    }
  }

  lemma FinishPosts(t: Trade, px: real, reason: Reason, p: Params)
    requires ValidParams(p) && Sound(t, p)
    ensures PostAll(Account(t, p), [Finish(t, px, reason)]) == Some(Flat)
    ensures Finish(t, px, reason).grossR == t.grossR + Won(t.remaining, RMultiple(t.dir, t.entry, t.risk, px))
  {
    PostOne(Account(t, p), Finish(t, px, reason));
  }

  lemma {:induction false} FinishAfter(l: Ledger, evs: seq<Event>, t: Trade, px: real, reason: Reason, p: Params)
    requires ValidParams(p) && Sound(t, p) && PostAll(l, evs) == Some(Account(t, p))
    ensures PostAll(l, evs + [Finish(t, px, reason)]) == Some(Flat)
  {
    FinishPosts(t, px, reason, p);
    PostSplit(l, evs, [Finish(t, px, reason)]);
  }

  // --------------------------------------------------------------- operations

  ghost predicate Inv(st: State, p: Params) {
    st.trade.Some? ==> Riding(st.trade.value, p) && st.trade.value.entryBar < st.barIndex
  }

  lemma MarkPosts(t: Trade, level: nat, p: Params)
    requires ValidParams(p) && Riding(t, p) && 1 <= level <= 3
    ensures var (trade, evs) := MarkTarget(Some(t), level, p);
            && PostAll(Account(t, p), evs) == Some(AccountOf(trade, p))
            && (trade.Some? ==> Riding(trade.value, p) && trade.value.entryBar == t.entryBar)
            && (level == 3 ==> trade.None? && |evs| > 0 && Last(evs).Exit? && Last(evs).grossR == Best(p))
  {
    HitRangePosts(t, 1, level, p);
    var (t1, evs) := HitRange(t, 1, level, p);
    if level >= 3 {
      FinishAfter(Account(t, p), evs, t1, t1.tp3, Tp3, p);
      FinishPosts(t1, t1.tp3, Tp3, p);
      LevelPays(t1, p, 3);
    }
  }

  lemma LevelsAscend(t: Trade, p: Params)
    requires ValidParams(p) && Shaped(t, p)
    ensures 0.0 < Signed(t.dir, t.tp1 - t.entry) < Signed(t.dir, t.tp2 - t.entry) < Signed(t.dir, t.tp3 - t.entry)
  {
    DistMono(t.risk, 0.0, p.tp1R);
    DistMono(t.risk, p.tp1R, p.tp2R);
    DistMono(t.risk, p.tp2R, p.tp3R);
    assert LevelPrice(t, 1) == t.tp1 && LevelPrice(t, 2) == t.tp2 && LevelPrice(t, 3) == t.tp3;
  }

  /** Touching a target means touching the nearer ones. */
  lemma TouchNests(t: Trade, p: Params, b: Bar)
    requires ValidParams(p) && Shaped(t, p)
    ensures Touch(t, p, b, t.tp3) ==> Touch(t, p, b, t.tp2)
    ensures Touch(t, p, b, t.tp2) ==> Touch(t, p, b, t.tp1)
  {
    LevelsAscend(t, p);
    assert LevelPrice(t, 1) == t.tp1 && LevelPrice(t, 2) == t.tp2 && LevelPrice(t, 3) == t.tp3;
  }

  /** The trade after the bar's target sweep, and the events of it. */
  ghost function Sweep(t: Trade, p: Params, b: Bar): (Trade, seq<Event>)
    requires t.risk > 0.0
  {
    var (t1, e1) := HitIf(Touched(t, p, b, 1), t, 1, p);
    var (t2, e2) := HitIf(Touched(t, p, b, 2), t1, 2, p);
    var (t3, e3) := HitIf(Touched(t, p, b, 3), t2, 3, p);
    (t3, e1 + e2 + e3)
  }

  /** The farthest target the bar has touched, by its own prices. */
  function Reach(t: Trade, p: Params, b: Bar): nat {
    if Touch(t, p, b, t.tp3) then 3 else if Touch(t, p, b, t.tp2) then 2 else if Touch(t, p, b, t.tp1) then 1 else 0
  }

  /** The sweep of a bar hits every level up to its reach, in order. */
  lemma {:induction false} SweepIsRange(t: Trade, p: Params, b: Bar)
    requires ValidParams(p) && Riding(t, p)
    ensures Sweep(t, p, b) == HitRange(t, 1, Reach(t, p, b), p)
  {
    TouchNests(t, p, b);
    var r := Reach(t, p, b);
    var (t1, e1) := HitIf(Touched(t, p, b, 1), t, 1, p);
    var (t2, e2) := HitIf(Touched(t, p, b, 2), t1, 2, p);
    var (t3, e3) := HitIf(Touched(t, p, b, 3), t2, 3, p);
    if r >= 1 {
      HitSound(t, 1, p);
      assert (t1, e1) == Hit(t, 1, p);
    }
    if r >= 2 {
      HitSound(t1, 2, p);
      assert (t2, e2) == Hit(t1, 2, p);
    }
    if r >= 3 {
      assert (t3, e3) == Hit(t2, 3, p);
    }
    assert e1 + (e2 + (e3 + [])) == e1 + e2 + e3;
    assert e1 + (e2 + []) == e1 + e2;
    assert e1 + [] == e1 && e2 + [] == e2;
    assert HitRange(t3, 4, 3, p) == (t3, []);
    assert HitRange(t2, 3, 2, p) == (t2, []);
    assert HitRange(t1, 2, 1, p) == (t1, []);
    assert r >= 3 ==> HitRange(t2, 3, 3, p) == (t3, e3 + []);
    assert r >= 2 ==> HitRange(t1, 2, r, p) == (t3, e2 + if r == 3 then e3 + [] else []);
  }

  lemma SteppedRides(t: Trade, p: Params)
    requires ValidParams(p) && Riding(t, p)
    ensures Riding(Stepped(t, p), p) && Account(Stepped(t, p), p) == Account(t, p)
  {
    var u := Stepped(t, p);
    assert forall l :: 1 <= l <= 3 ==> LevelPrice(u, l) == LevelPrice(t, l);
  }

  lemma StoppedOutSound(t: Trade, p: Params, b: Bar)
    requires Sound(t, p)
    ensures Sound(StoppedOut(t, p, b), p) && Account(StoppedOut(t, p, b), p) == Account(t, p)
  {
    assert forall l :: 1 <= l <= 3 ==> LevelPrice(StoppedOut(t, p, b), l) == LevelPrice(t, l);
  }

  /** A stop: everything open is closed at once. */
  lemma StopPosts(t: Trade, p: Params, b: Bar, dir: int)
    requires ValidParams(p) && Riding(t, p) && Stopped(t, b)
    ensures var (trade, evs) := Manage(t, p, b, dir);
            trade.None? && PostAll(Account(t, p), evs) == Some(Flat)
  {
    StoppedOutSound(t, p, b);
    FinishPosts(StoppedOut(t, p, b), StopFill(t, b), StopReason(t), p);
  }

  /** A bar that does not stop the trade: the sweep, then TP3, a reversal or the stop step. */
  lemma SweepPosts(t: Trade, p: Params, b: Bar, dir: int)
    requires ValidParams(p) && Riding(t, p) && !Stopped(t, b)
    ensures var (trade, evs) := Manage(t, p, b, dir);
            && PostAll(Account(t, p), evs) == Some(AccountOf(trade, p))
            && (trade.Some? ==> Riding(trade.value, p) && trade.value.entryBar == t.entryBar)
  {
    SweepIsRange(t, p, b);
    HitRangePosts(t, 1, Reach(t, p, b), p);
    var (t3, evs) := Sweep(t, p, b);
    if Touched(t, p, b, 3) {
      FinishAfter(Account(t, p), evs, t3, t3.tp3, Tp3, p);
    } else if dir == -t.dir {
      FinishAfter(Account(t, p), evs, t3, b.close, Reversal, p);
    } else {
      SteppedRides(t3, p);
    }
  }

  /** Managing an open trade keeps the account and never leaves TP3 behind. */
  lemma ManagePosts(t: Trade, p: Params, b: Bar, dir: int)
    requires ValidParams(p) && Riding(t, p)
    ensures var (trade, evs) := Manage(t, p, b, dir);
            && PostAll(Account(t, p), evs) == Some(AccountOf(trade, p))
            && (trade.Some? ==> Riding(trade.value, p) && trade.value.entryBar == t.entryBar)
  {
    if Stopped(t, b) {
      StopPosts(t, p, b, dir);
    } else {
      SweepPosts(t, p, b, dir);
    }
  }

  lemma EntryPosts(p: Params, idx: nat, b: Bar, s: Signals, allowed: bool)
    requires ValidParams(p) && SignalDir(p, idx, b, s, allowed) != 0
    ensures var t := Opened(p, idx, b, s, SignalDir(p, idx, b, s, allowed));
            Riding(t, p) && PostAll(Flat, [EntryOf(t)]) == Some(Account(t, p))
  {
    SignalHasRisk(p, idx, b, s, allowed);
    var t := Opened(p, idx, b, s, SignalDir(p, idx, b, s, allowed));
    PostOne(Flat, EntryOf(t));
    assert Signed(t.dir, t.entry - t.stop) == t.risk;
  }

  /** One bar keeps the account of the position and of the trade it may open. */
  lemma BarPosts(st: State, p: Params, b: Bar, s: Signals, allowed: bool)
    requires ValidParams(p) && Inv(st, p)
    ensures var (st2, evs) := OnBar(st, p, b, s, allowed);
            Inv(st2, p) && PostAll(AccountOf(st.trade, p), evs) == Some(AccountOf(st2.trade, p))
  {
    var dir := SignalDir(p, st.barIndex, b, s, allowed);
    if st.trade.Some? {
      ManagePosts(st.trade.value, p, b, dir);
    }
    var (t, evs) := if st.trade.Some? then Manage(st.trade.value, p, b, dir) else (st.trade, []);
    if dir != 0 && t.None? {
      EntryPosts(p, st.barIndex, b, s, allowed);
      PostSplit(AccountOf(st.trade, p), evs, [EntryOf(Opened(p, st.barIndex, b, s, dir))]);
    }
  }

  datatype Op =
    | Feed(b: Bar, s: Signals, allowed: bool)
    | Mark(level: nat)
    | Force(px: real, reason: Reason)

  ghost predicate ValidOps(ops: seq<Op>) {
    forall i :: 0 <= i < |ops| ==> ops[i].Mark? ==> 1 <= ops[i].level <= 3
  }

  /** One call of the engine. */
  function Do(st: State, p: Params, op: Op): (State, seq<Event>)
    requires (st.trade.Some? ==> st.trade.value.risk > 0.0) && (op.Mark? ==> 1 <= op.level <= 3)
  {
    match op
    case Feed(b, s, allowed) => OnBar(st, p, b, s, allowed)
    case Mark(level) => var (t, evs) := MarkTarget(st.trade, level, p); (State(st.barIndex, t), evs)
    case Force(px, reason) => (State(st.barIndex, None), ForceClose(st.trade, px, reason))
  }

  lemma DoPosts(st: State, p: Params, op: Op)
    requires ValidParams(p) && Inv(st, p) && (op.Mark? ==> 1 <= op.level <= 3)
    ensures Inv(Do(st, p, op).0, p)
    ensures PostAll(AccountOf(st.trade, p), Do(st, p, op).1) == Some(AccountOf(Do(st, p, op).0.trade, p))
  {
    match op
    case Feed(b, s, allowed) => BarPosts(st, p, b, s, allowed);
    case Mark(level) =>
      if st.trade.Some? {
        MarkPosts(st.trade.value, level, p);
      }
    case Force(px, reason) =>
      if st.trade.Some? {
        FinishPosts(st.trade.value, px, reason, p);
      }
  }

  /** All events of a sequence of calls, and the state after it. */
  ghost function Run(p: Params, ops: seq<Op>): (r: (State, seq<Event>))
    requires ValidParams(p) && ValidOps(ops)
    ensures Inv(r.0, p)
  {
    if |ops| == 0 then (State(0, None), [])
    else
      var (st, evs) := Run(p, Front(ops));
      DoPosts(st, p, Last(ops));
      (Do(st, p, Last(ops)).0, evs + Do(st, p, Last(ops)).1)
  }

  /** Accounting over all runs of bars, ticks and forced closes: the events are a sequence of complete
      trades, each an entry, at most TP1 and TP2 in this order, and an exit, whose fractions sum to 1
      and whose reported R is the fraction-weighted R of its fills; the trade still open at the end is
      the engine's, with the same direction, entry, risk, part closed and R won. */
  lemma {:induction false} EveryTradeAccountsForItself(p: Params, ops: seq<Op>)
    requires ValidParams(p) && ValidOps(ops)
    ensures PostAll(Flat, Run(p, ops).1) == Some(AccountOf(Run(p, ops).0.trade, p))
  {
    if |ops| > 0 {
      EveryTradeAccountsForItself(p, Front(ops));
      var (st, evs) := Run(p, Front(ops));
      DoPosts(st, p, Last(ops));
      PostSplit(Flat, evs, Do(st, p, Last(ops)).1);
    }
  }

  /** A range of hits emits partials only. */
  lemma {:induction false} RangeHasNoEntry(t: Trade, from: nat, upto: nat, p: Params)
    requires t.risk > 0.0 && 1 <= from && upto <= 3
    ensures forall i :: 0 <= i < |HitRange(t, from, upto, p).1| ==> HitRange(t, from, upto, p).1[i].Partial?
    decreases 4 - from
  {
    if from <= upto {
      RangeHasNoEntry(Hit(t, from, p).0, from + 1, upto, p);
    }
  }

  // ------------------------------------------------------------------- bounds

  /** The exit of a bar that closes the trade. */
  ghost function BarExit(t: Trade, p: Params, b: Bar): Event
    requires t.risk > 0.0
  {
    if Stopped(t, b) then Finish(StoppedOut(t, p, b), StopFill(t, b), StopReason(t))
    else
      var u := Sweep(t, p, b).0;
      if Touch(t, p, b, t.tp3) then Finish(u, u.tp3, Tp3) else Finish(u, b.close, Reversal)
  }

  /** A bar closes the trade with one exit, after the partials of its sweep. */
  lemma BarExitIs(t: Trade, p: Params, b: Bar, dir: int)
    requires t.risk > 0.0 && !t.hit3 && Manage(t, p, b, dir).0.None?
    ensures Manage(t, p, b, dir).1 == (if Stopped(t, b) then [] else Sweep(t, p, b).1) + [BarExit(t, p, b)]
  {
  }

  /** The weighted mean of R values at most `r1`, `r2`, `r3` is at most `Best`. */
  lemma MeanBound(p: Params, n: nat, x: real)
    requires ValidParams(p) && n <= 2 && x <= LevelR(p, n + 1)
    ensures (if n >= 1 then Gain(p, 1) else 0.0) + (if n >= 2 then Gain(p, 2) else 0.0)
            + Won(1.0 - (if n >= 1 then p.f1 else 0.0) - (if n >= 2 then p.f2 else 0.0), x) <= Best(p)
  {
    var rest := 1.0 - p.f1 - p.f2;
    var w := rest + (if n >= 2 then 0.0 else p.f2) + (if n >= 1 then 0.0 else p.f1);
    WonMono(w, x, LevelR(p, n + 1));
    WonMono(rest, LevelR(p, n + 1), p.tp3R);
    if n == 0 {
      WonMono(p.f2, p.tp1R, p.tp2R);
      WonSplit(rest + p.f2, p.f1, p.tp1R);
      WonSplit(rest, p.f2, p.tp1R);
    } else if n == 1 {
      WonSplit(rest, p.f2, p.tp2R);
    }
  }

  lemma WonMono(f: real, x: real, y: real)
    requires f >= 0.0 && x <= y
    ensures Won(f, x) <= Won(f, y)
  {
  }

  lemma WonSplit(f: real, g: real, x: real)
    ensures Won(f + g, x) == Won(f, x) + Won(g, x)
  {
  }

  /** How many targets a trade has hit. */
  function Hits(t: Trade): nat {
    if t.hit3 then 3 else if t.hit2 then 2 else if t.hit1 then 1 else 0
  }

  /** Closing at a price that is not beyond the next target yields at most `Best`. */
  lemma CloseBound(t: Trade, p: Params, px: real, reason: Reason)
    requires ValidParams(p) && Sound(t, p) && !t.hit3
    requires Signed(t.dir, LevelPrice(t, Hits(t) + 1) - px) >= 0.0
    ensures Finish(t, px, reason).grossR <= Best(p)
  {
    LevelPays(t, p, Hits(t) + 1);
    RMono(t.dir, t.entry, t.risk, px, LevelPrice(t, Hits(t) + 1));
    FinishPosts(t, px, reason, p);
    MeanBound(p, Hits(t), RMultiple(t.dir, t.entry, t.risk, px));
  }

  /** The trade left by a sweep that did not reach TP3 has hit exactly what the bar reached or what it
      had hit before. */
  lemma SweptHits(t: Trade, p: Params, b: Bar)
    requires ValidParams(p) && Riding(t, p) && !Touch(t, p, b, t.tp3)
    ensures var u := Sweep(t, p, b).0;
            && Sound(u, p) && SameOrder(t, u) && !u.hit3
            && !Touch(t, p, b, LevelPrice(t, Hits(u) + 1)) && (t.hit1 ==> u.hit1)
  {
    SweepIsRange(t, p, b);
    HitRangePosts(t, 1, Reach(t, p, b), p);
    TouchNests(t, p, b);
  }

  lemma SweptToTp3(t: Trade, p: Params, b: Bar)
    requires ValidParams(p) && Riding(t, p) && Touch(t, p, b, t.tp3)
    ensures var u := Sweep(t, p, b).0;
            Sound(u, p) && Finish(u, u.tp3, Tp3).grossR == Best(p)
  {
    SweepIsRange(t, p, b);
    HitRangePosts(t, 1, 3, p);
    var u := Sweep(t, p, b).0;
    FinishPosts(u, u.tp3, Tp3, p);
    LevelPays(u, p, 3);
  }

  /** No exit of a bar beats reaching every target, and TP3 is exactly that. */
  lemma BarExitBound(t: Trade, p: Params, b: Bar, dir: int)
    requires ValidParams(p) && p.tpThrough == 0 && Riding(t, p) && Ohlc(b) && Manage(t, p, b, dir).0.None?
    ensures |Manage(t, p, b, dir).1| > 0 && Last(Manage(t, p, b, dir).1).Exit?
    ensures Last(Manage(t, p, b, dir).1).grossR <= Best(p)
    ensures Last(Manage(t, p, b, dir).1).reason == Tp3 ==> Last(Manage(t, p, b, dir).1).grossR == Best(p)
  {
    BarExitIs(t, p, b, dir);
    ExitBound(t, p, b);
  }

  lemma ExitBound(t: Trade, p: Params, b: Bar)
    requires ValidParams(p) && p.tpThrough == 0 && Riding(t, p) && Ohlc(b)
    ensures BarExit(t, p, b).grossR <= Best(p)
    ensures BarExit(t, p, b).reason == Tp3 ==> BarExit(t, p, b).grossR == Best(p)
  {
    if Stopped(t, b) {
      StopBound(t, p, b);
    } else if Touch(t, p, b, t.tp3) {
      SweptToTp3(t, p, b);
    } else {
      ReversalBound(t, p, b);
    }
  }

  lemma ReversalBound(t: Trade, p: Params, b: Bar)
    requires ValidParams(p) && p.tpThrough == 0 && Riding(t, p) && Ohlc(b) && !Touch(t, p, b, t.tp3)
    ensures Finish(Sweep(t, p, b).0, b.close, Reversal).grossR <= Best(p)
  {
    SweptHits(t, p, b);
    var u := Sweep(t, p, b).0;
    assert Through(p) == 0.0;
    assert LevelPrice(u, Hits(u) + 1) == LevelPrice(t, Hits(u) + 1);
    CloseBound(u, p, b.close, Reversal);
  }

  /** The stop never lies beyond the next target. */
  lemma StopBehindTarget(t: Trade, p: Params)
    requires ValidParams(p) && Riding(t, p)
    ensures Signed(t.dir, LevelPrice(t, Hits(t) + 1) - t.stop) >= 0.0
  {
    LevelsAscend(t, p);
  }

  lemma StopBound(t: Trade, p: Params, b: Bar)
    requires ValidParams(p) && Riding(t, p) && Stopped(t, b)
    ensures Finish(StoppedOut(t, p, b), StopFill(t, b), StopReason(t)).grossR <= Best(p)
  {
    StopBehindTarget(t, p);
    var px := StopFill(t, b);
    assert Signed(t.dir, t.stop - px) >= 0.0;
    assert Signed(t.dir, LevelPrice(t, Hits(t) + 1) - px) >= 0.0;
    CloseBound(t, p, px, StopReason(t));
  }

  /** A trade past TP1 that closes on the profit side of its entry keeps TP1's gain. */
  lemma FloorAt(t: Trade, p: Params, px: real, reason: Reason)
    requires ValidParams(p) && Sound(t, p) && t.hit1 && Signed(t.dir, px - t.entry) >= 0.0
    ensures Finish(t, px, reason).grossR >= Gain(p, 1)
  {
    FinishPosts(t, px, reason, p);
    RMono(t.dir, t.entry, t.risk, t.entry, px);
    assert RMultiple(t.dir, t.entry, t.risk, t.entry) == 0.0;
    WonPositive(t.remaining, RMultiple(t.dir, t.entry, t.risk, px));
    WonPositive(p.f2, p.tp2R);
  }

  lemma SteppedStop(t: Trade, p: Params)
    requires ValidParams(p) && Riding(t, p) && t.stop != t.initialStop
    ensures t.hit1 && Signed(t.dir, t.stop - t.entry) >= 0.0
  {
    assert LevelPrice(t, 1) == t.tp1;
    assert t.risk * p.tp1R > 0.0;
  }

  /** Once the stop has stepped, a bar that does not open beyond it cannot take the trade out for less
      than what TP1 paid. */
  lemma SteppedStopKeepsTp1(t: Trade, p: Params, b: Bar, dir: int)
    requires ValidParams(p) && Riding(t, p) && Ohlc(b) && Manage(t, p, b, dir).0.None?
    requires t.stop != t.initialStop && Signed(t.dir, b.open - t.stop) >= 0.0
    ensures |Manage(t, p, b, dir).1| > 0 && Last(Manage(t, p, b, dir).1).Exit?
    ensures Last(Manage(t, p, b, dir).1).grossR >= Gain(p, 1)
  {
    BarExitIs(t, p, b, dir);
    SteppedExit(t, p, b);
  }

  lemma SteppedExit(t: Trade, p: Params, b: Bar)
    requires ValidParams(p) && Riding(t, p) && Ohlc(b)
    requires t.stop != t.initialStop && Signed(t.dir, b.open - t.stop) >= 0.0
    ensures BarExit(t, p, b).grossR >= Gain(p, 1)
  {
    SteppedStop(t, p);
    if Stopped(t, b) {
      SteppedStopOut(t, p, b);
    } else if Touch(t, p, b, t.tp3) {
      SweptToTp3(t, p, b);
      BestFloor(p);
    } else {
      SteppedReversal(t, p, b);
    }
  }

  /** A bar's exit is the last event of the trade it closes. */
  lemma ManageExits(t: Trade, p: Params, b: Bar, dir: int, j: nat)
    requires ValidParams(p) && Riding(t, p) && j < |Manage(t, p, b, dir).1| && Manage(t, p, b, dir).1[j].Exit?
    ensures j == |Manage(t, p, b, dir).1| - 1 && Manage(t, p, b, dir).0.None?
  {
    if !Stopped(t, b) {
      SweepIsRange(t, p, b);
      RangeHasNoEntry(t, 1, Reach(t, p, b), p);
    }
  }

  /** The exit of a run's bar is that of the trade open before the bar. */
  lemma FeedExits(st: State, p: Params, b: Bar, s: Signals, allowed: bool, j: nat)
    requires ValidParams(p) && Inv(st, p) && j < |OnBar(st, p, b, s, allowed).1|
             && OnBar(st, p, b, s, allowed).1[j].Exit?
    ensures st.trade.Some?
    ensures var dir := SignalDir(p, st.barIndex, b, s, allowed);
            Manage(st.trade.value, p, b, dir).0.None? && |Manage(st.trade.value, p, b, dir).1| > 0
            && OnBar(st, p, b, s, allowed).1[j] == Last(Manage(st.trade.value, p, b, dir).1)
  {
    var dir := SignalDir(p, st.barIndex, b, s, allowed);
    if st.trade.Some? {
      ManageExits(st.trade.value, p, b, dir, if j < |Manage(st.trade.value, p, b, dir).1| then j else 0);
    }
  }

  /** The engine of a run before its operation `n`. */
  ghost function Before(p: Params, ops: seq<Op>, n: nat): (st: State)
    requires ValidParams(p) && ValidOps(ops) && n <= |ops|
    ensures Inv(st, p)
  {
    assert ValidOps(ops[..n]) by {
      assert forall i :: 0 <= i < n ==> ops[..n][i] == ops[i];
    }
    Run(p, ops[..n]).0
  }

  /** In every run, no exit of a bar with valid prices beats reaching every target, and TP3 is exactly
      that. */
  lemma {:induction false} ExitsOfRunsAreBounded(p: Params, ops: seq<Op>, n: nat, j: nat)
    requires ValidParams(p) && p.tpThrough == 0 && ValidOps(ops) && n < |ops| && ops[n].Feed? && Ohlc(ops[n].b)
    requires var evs := Do(Before(p, ops, n), p, ops[n]).1; j < |evs| && evs[j].Exit?
    ensures var e := Do(Before(p, ops, n), p, ops[n]).1[j];
            e.grossR <= Best(p) && (e.reason == Tp3 ==> e.grossR == Best(p))
  {
    var st, f := Before(p, ops, n), ops[n];
    FeedExits(st, p, f.b, f.s, f.allowed, j);
    BarExitBound(st.trade.value, p, f.b, SignalDir(p, st.barIndex, f.b, f.s, f.allowed));
  }

  /** In every run, once the stop has moved, an exit of a bar that does not open beyond it keeps what TP1
      won. */
  lemma {:induction false} SteppedStopOfRunsKeepsTp1(p: Params, ops: seq<Op>, n: nat, j: nat)
    requires ValidParams(p) && ValidOps(ops) && n < |ops| && ops[n].Feed? && Ohlc(ops[n].b)
    requires var evs := Do(Before(p, ops, n), p, ops[n]).1; j < |evs| && evs[j].Exit?
    ensures var t := Before(p, ops, n).trade;
            && t.Some?
            && (t.value.stop != t.value.initialStop && Signed(t.value.dir, ops[n].b.open - t.value.stop) >= 0.0
                ==> Do(Before(p, ops, n), p, ops[n]).1[j].grossR >= Gain(p, 1))
  {
    var st, f := Before(p, ops, n), ops[n];
    FeedExits(st, p, f.b, f.s, f.allowed, j);
    var t := st.trade.value;
    if t.stop != t.initialStop && Signed(t.dir, f.b.open - t.stop) >= 0.0 {
      SteppedStopKeepsTp1(t, p, f.b, SignalDir(p, st.barIndex, f.b, f.s, f.allowed));
    }
  }

  lemma WonPositive(f: real, r: real)
    requires f >= 0.0 && r >= 0.0
    ensures Won(f, r) >= 0.0
  {
  }

  lemma BestFloor(p: Params)
    requires ValidParams(p)
    ensures Best(p) >= Gain(p, 1)
  {
    WonPositive(1.0 - p.f1 - p.f2, p.tp3R);
    WonPositive(p.f2, p.tp2R);
  }

  lemma SteppedStopOut(t: Trade, p: Params, b: Bar)
    requires ValidParams(p) && Riding(t, p) && Stopped(t, b) && t.hit1
    requires Signed(t.dir, t.stop - t.entry) >= 0.0 && Signed(t.dir, b.open - t.stop) >= 0.0
    ensures Finish(StoppedOut(t, p, b), StopFill(t, b), StopReason(t)).grossR >= Gain(p, 1)
  {
    assert StopFill(t, b) == t.stop;
    StoppedOutSound(t, p, b);
    FloorAt(StoppedOut(t, p, b), p, t.stop, StopReason(t));
  }

  lemma SteppedReversal(t: Trade, p: Params, b: Bar)
    requires ValidParams(p) && Riding(t, p) && Ohlc(b) && !Stopped(t, b) && !Touch(t, p, b, t.tp3)
    requires t.hit1 && Signed(t.dir, t.stop - t.entry) >= 0.0
    ensures Finish(Sweep(t, p, b).0, b.close, Reversal).grossR >= Gain(p, 1)
  {
    SweptHits(t, p, b);
    FloorAt(Sweep(t, p, b).0, p, b.close, Reversal);
  }

  // ------------------------------------------------------- ticks and the bar agree

  /** What a tick at the executable price `px` does (`check_levels`): the stop first, then the farthest
      target reached. */
  function Tick(trade: Option<Trade>, p: Params, px: real): (r: (Option<Trade>, seq<Event>))
    requires trade.Some? ==> trade.value.risk > 0.0
    ensures r.0.Some? ==> r.0.value.risk > 0.0
  {
    match trade
    case None => (None, [])
    case Some(t) =>
      if Signed(t.dir, px - t.stop) <= 0.0 then (None, [Finish(t, px, StopReason(t))])
      else
        var level := TickLevel(t, px);
        if level == 0 then (trade, []) else MarkTarget(trade, level, p)
  }

  /** The farthest target not yet hit that `px` has reached; 0 for none. */
  function TickLevel(t: Trade, px: real): nat {
    if Reached(t, 3, px) then 3 else if Reached(t, 2, px) then 2 else if Reached(t, 1, px) then 1 else 0
  }

  predicate Reached(t: Trade, level: nat, px: real) {
    !IsHit(t, level) && Signed(t.dir, px - LevelPrice(t, level)) >= 0.0
  }

  function Ticks(trade: Option<Trade>, p: Params, pxs: seq<real>): (r: (Option<Trade>, seq<Event>))
    requires trade.Some? ==> trade.value.risk > 0.0
    ensures r.0.Some? ==> r.0.value.risk > 0.0
    decreases |pxs|
  {
    if |pxs| == 0 then (trade, [])
    else
      var (t1, e1) := Tick(trade, p, pxs[0]);
      var (t2, e2) := Ticks(t1, p, pxs[1..]);
      (t2, e1 + e2)
  }

  lemma TickRides(trade: Option<Trade>, p: Params, px: real)
    requires ValidParams(p) && (trade.Some? ==> Riding(trade.value, p))
    ensures var t := Tick(trade, p, px).0;
            t.Some? ==> trade.Some? && Riding(t.value, p) && t.value.entryBar == trade.value.entryBar
  {
    if trade.Some? && TickLevel(trade.value, px) > 0 {
      MarkPosts(trade.value, TickLevel(trade.value, px), p);
    }
  }

  /** Hitting up to `n` and then up to `m >= n` is hitting up to `m`. */
  lemma {:induction false} HitRangeTwice(t: Trade, n: nat, m: nat, p: Params)
    requires ValidParams(p) && Sound(t, p) && 1 <= n <= m <= 3
    ensures var (u, e) := HitRange(t, 1, n, p);
            HitRange(t, 1, m, p) == (HitRange(u, 1, m, p).0, e + HitRange(u, 1, m, p).1)
  {
    var (u, e) := HitRange(t, 1, n, p);
    HitRangeSplit(t, 1, n, m, p);
    HitRangePosts(t, 1, n, p);
    HitRangeDone(u, 1, n, m, p);
  }

  /** `r` is the outcome `rest` with the events `e` before it. */
  ghost predicate Continues<T(!new)>(r: (T, seq<Event>), e: seq<Event>, rest: (T, seq<Event>)) {
    r.0 == rest.0 && r.1 == e + rest.1
  }

  lemma ContinuesTwice<T(!new)>(r: (T, seq<Event>), e1: seq<Event>, r1: (T, seq<Event>), e2: seq<Event>,
      r2: (T, seq<Event>))
    requires Continues(r, e1, r1) && Continues(r1, e2, r2)
    ensures Continues(r, e1 + e2, r2)
  {
    assert (e1 + e2) + r2.1 == e1 + (e2 + r2.1);
  }

  lemma {:induction false} HitRangeSplit(t: Trade, from: nat, n: nat, m: nat, p: Params)
    requires t.risk > 0.0 && 1 <= from <= n + 1 && n <= m <= 3
    ensures var (u, e) := HitRange(t, from, n, p); Continues(HitRange(t, from, m, p), e, HitRange(u, n + 1, m, p))
    decreases n + 1 - from
  {
    if from <= n {
      var (t1, e1) := Hit(t, from, p);
      HitRangeSplit(t1, from + 1, n, m, p);
      var (u, e2) := HitRange(t1, from + 1, n, p);
      HitRangeFirst(t, from, m, p);
      HitRangeFirst(t, from, n, p);
      ContinuesTwice(HitRange(t, from, m, p), e1, HitRange(t1, from + 1, m, p), e2, HitRange(u, n + 1, m, p));
    } else {
      assert [] + HitRange(t, n + 1, m, p).1 == HitRange(t, n + 1, m, p).1;
    }
  }

  lemma HitRangeFirst(t: Trade, from: nat, m: nat, p: Params)
    requires t.risk > 0.0 && 1 <= from <= m <= 3
    ensures var (t1, e1) := Hit(t, from, p); Continues(HitRange(t, from, m, p), e1, HitRange(t1, from + 1, m, p))
  {
  }

  /** Levels already hit add nothing. */
  lemma {:induction false} HitRangeDone(u: Trade, from: nat, n: nat, m: nat, p: Params)
    requires u.risk > 0.0 && 1 <= from <= n + 1 && n <= m <= 3
    requires forall l :: from <= l <= n ==> IsHit(u, l)
    ensures HitRange(u, from, m, p) == HitRange(u, n + 1, m, p)
    decreases n + 1 - from
  {
    if from <= n {
      HitRangeDone(u, from + 1, n, m, p);
      assert Hit(u, from, p) == (u, []);
      assert [] + HitRange(u, from + 1, m, p).1 == HitRange(u, from + 1, m, p).1;
    }
  }

  /** A price the bar traded. */
  ghost predicate Inside(b: Bar, px: real) {
    b.low <= px <= b.high
  }

  /** A tick on an unstopped bar reaches no farther than the bar, and is a mark of that level. */
  lemma TickWithinBar(t: Trade, p: Params, b: Bar, px: real)
    requires ValidParams(p) && p.tpThrough == 0 && Riding(t, p) && !Stopped(t, b) && Inside(b, px)
    ensures Signed(t.dir, px - t.stop) > 0.0
    ensures TickLevel(t, px) <= Reach(t, p, b)
  {
    assert Through(p) == 0.0;
    TouchNests(t, p, b);
  }

  /** What an unstopped bar does with a trade: hit up to its reach, then TP3, a reversal or the step. */
  ghost function Outcome(t: Trade, p: Params, b: Bar, dir: int, reach: nat): (Option<Trade>, seq<Event>)
    requires t.risk > 0.0 && reach <= 3
  {
    var (u, evs) := HitRange(t, 1, reach, p);
    if reach == 3 then (None, evs + [Finish(u, u.tp3, Tp3)])
    else if dir == -t.dir then (None, evs + [Finish(u, b.close, Reversal)])
    else (Some(Stepped(u, p)), evs)
  }

  lemma ManageIsOutcome(t: Trade, p: Params, b: Bar, dir: int)
    requires ValidParams(p) && Riding(t, p) && !Stopped(t, b)
    ensures Manage(t, p, b, dir) == Outcome(t, p, b, dir, Reach(t, p, b))
  {
    SweepIsRange(t, p, b);
    TouchNests(t, p, b);
    HitRangePosts(t, 1, Reach(t, p, b), p);
  }

  /** One tick on the bar before the bar: nothing changes in the end. */
  lemma TickThenBar(t: Trade, p: Params, b: Bar, dir: int, px: real)
    requires ValidParams(p) && p.tpThrough == 0 && Riding(t, p) && !Stopped(t, b) && Inside(b, px)
    ensures var (trade, e) := Tick(Some(t), p, px);
            match trade
            case Some(u) =>
              && Riding(u, p) && !Stopped(u, b) && u.entryBar == t.entryBar
              && Manage(t, p, b, dir) == (Manage(u, p, b, dir).0, e + Manage(u, p, b, dir).1)
            case None => Manage(t, p, b, dir) == (None, e)
  {
    TickWithinBar(t, p, b, px);
    var n := TickLevel(t, px);
    if n == 0 {
      assert [] + Manage(t, p, b, dir).1 == Manage(t, p, b, dir).1;
    } else if n < 3 {
      MarkPosts(t, n, p);
      PartialsThenBar(t, p, b, dir, n);
    } else {
      ManageIsOutcome(t, p, b, dir);
    }
  }

  /** TP1 or TP1 and TP2 taken before the bar. */
  lemma {:induction false} PartialsThenBar(t: Trade, p: Params, b: Bar, dir: int, n: nat)
    requires ValidParams(p) && Riding(t, p) && !Stopped(t, b) && 1 <= n <= 2 && n <= Reach(t, p, b)
    ensures var (u, e) := HitRange(t, 1, n, p);
            && Riding(u, p) && !Stopped(u, b) && u.entryBar == t.entryBar
            && Manage(t, p, b, dir) == (Manage(u, p, b, dir).0, e + Manage(u, p, b, dir).1)
  {
    var r := Reach(t, p, b);
    HitRangePosts(t, 1, n, p);
    var (u, e) := HitRange(t, 1, n, p);
    assert Reach(u, p, b) == r;
    ManageIsOutcome(t, p, b, dir);
    ManageIsOutcome(u, p, b, dir);
    HitRangeTwice(t, n, r, p);
    OutcomeAfter(t, u, e, p, b, dir, r);
  }

  lemma {:induction false} OutcomeAfter(t: Trade, u: Trade, e: seq<Event>, p: Params, b: Bar, dir: int, r: nat)
    requires t.risk > 0.0 && u.risk > 0.0 && t.dir == u.dir && r <= 3
    requires HitRange(t, 1, r, p) == (HitRange(u, 1, r, p).0, e + HitRange(u, 1, r, p).1)
    ensures Outcome(t, p, b, dir, r) == (Outcome(u, p, b, dir, r).0, e + Outcome(u, p, b, dir, r).1)
  {
    var (v, rest) := HitRange(u, 1, r, p);
    var tp3, rev := [Finish(v, v.tp3, Tp3)], [Finish(v, b.close, Reversal)];
    assert (e + rest) + tp3 == e + (rest + tp3);
    assert (e + rest) + rev == e + (rest + rev);
  }

  /** One tick inside the bar, then the bar. */
  lemma TickCommutes(st: State, p: Params, px: real, b: Bar, s: Signals, allowed: bool)
    requires ValidParams(p) && p.tpThrough == 0 && Inv(st, p) && Inside(b, px)
    requires st.trade.Some? ==> !Stopped(st.trade.value, b)
    ensures var (t1, e1) := Tick(st.trade, p, px);
            && Inv(State(st.barIndex, t1), p) && (t1.Some? ==> !Stopped(t1.value, b))
            && SameAs(st, p, b, s, allowed, t1, e1)
  {
    TickRides(st.trade, p, px);
    var (t1, e1) := Tick(st.trade, p, px);
    if st.trade.Some? {
      TickThenBar(st.trade.value, p, b, SignalDir(p, st.barIndex, b, s, allowed), px);
    }
    BarAfterTick(st, State(st.barIndex, t1), e1, p, b, s, allowed);
  }

  /** The bar alone and `e`, then the bar with `trade` open, come to the same. */
  ghost predicate SameAs(st: State, p: Params, b: Bar, s: Signals, allowed: bool, trade: Option<Trade>, e: seq<Event>)
    requires (st.trade.Some? ==> st.trade.value.risk > 0.0) && (trade.Some? ==> trade.value.risk > 0.0)
  {
    Continues(OnBar(st, p, b, s, allowed), e, OnBar(State(st.barIndex, trade), p, b, s, allowed))
  }

  lemma SameAsChains(
      st: State, p: Params, b: Bar, s: Signals, allowed: bool, t1: Option<Trade>, e1: seq<Event>, t2: Option<Trade>,
      e2: seq<Event>)
    requires (st.trade.Some? ==> st.trade.value.risk > 0.0) && (t1.Some? ==> t1.value.risk > 0.0)
             && (t2.Some? ==> t2.value.risk > 0.0)
    requires SameAs(st, p, b, s, allowed, t1, e1) && SameAs(State(st.barIndex, t1), p, b, s, allowed, t2, e2)
    ensures SameAs(st, p, b, s, allowed, t2, e1 + e2)
  {
    ContinuesTwice(OnBar(st, p, b, s, allowed), e1, OnBar(State(st.barIndex, t1), p, b, s, allowed), e2,
                   OnBar(State(st.barIndex, t2), p, b, s, allowed));
  }

  /** Intrabar ticks commute with the bar: any ticks inside a bar that does not touch the stop, followed
      by the bar, leave the same trade and the same events in the same order as the bar alone,
      including TP3 and a new trade opened at the bar's close. */
  lemma {:induction false} TicksCommuteWithBar(st: State, p: Params, pxs: seq<real>, b: Bar, s: Signals, allowed: bool)
    requires ValidParams(p) && p.tpThrough == 0 && Inv(st, p)
    requires st.trade.Some? ==> !Stopped(st.trade.value, b)
    requires forall i :: 0 <= i < |pxs| ==> Inside(b, pxs[i])
    ensures var (trade, e) := Ticks(st.trade, p, pxs); SameAs(st, p, b, s, allowed, trade, e)
    decreases |pxs|
  {
    if |pxs| == 0 {
      assert [] + OnBar(st, p, b, s, allowed).1 == OnBar(st, p, b, s, allowed).1;
    } else {
      TickCommutes(st, p, pxs[0], b, s, allowed);
      var (t1, e1) := Tick(st.trade, p, pxs[0]);
      var (t2, e2) := Ticks(t1, p, pxs[1..]);
      TicksCommuteWithBar(State(st.barIndex, t1), p, pxs[1..], b, s, allowed);
      SameAsChains(st, p, b, s, allowed, t1, e1, t2, e2);
    }
  }

  /** The bar's entry is the same whichever way the old trade ended. */
  lemma BarAfterTick(st: State, st1: State, e1: seq<Event>, p: Params, b: Bar, s: Signals, allowed: bool)
    requires ValidParams(p) && Inv(st, p) && Inv(st1, p) && st.barIndex == st1.barIndex
    requires var dir := SignalDir(p, st.barIndex, b, s, allowed);
             if st.trade.None? then st1.trade.None? && e1 == []
             else match st1.trade
                  case Some(u) => Manage(st.trade.value, p, b, dir)
                      == (Manage(u, p, b, dir).0, e1 + Manage(u, p, b, dir).1)
                  case None => Manage(st.trade.value, p, b, dir) == (None, e1)
    ensures OnBar(st, p, b, s, allowed) == (OnBar(st1, p, b, s, allowed).0, e1 + OnBar(st1, p, b, s, allowed).1)
  {
    var dir := SignalDir(p, st.barIndex, b, s, allowed);
    var (t, evs) := if st1.trade.Some? then Manage(st1.trade.value, p, b, dir) else (None, []);
    var enter := if dir != 0 && t.None? then [EntryOf(Opened(p, st.barIndex, b, s, dir))] else [];
    assert (e1 + evs) + enter == e1 + (evs + enter);
    assert evs + [] == evs && (e1 + evs) + [] == e1 + evs;
    assert st1.trade.None? ==> e1 + [] == e1;
  }
}
