/** The startup hand-off (`apps/kite-node/src/native_node/data.rs`, `live_backfill.rs`): a background task
    that sends the gap's bars and the feed handler that sends live bars race for one lock. Every step of
    either side is one step of this system; they interleave freely. */
module Handoff {
  import opened Common
  import opened Historical
  import opened Candles
  import opened Grouping
  import CR = CandleRuns
  import CS = CandleStream
  import opened Backfill

  /** The warm-up close (epoch seconds) and the bar size. */
  datatype Setup = Setup(lc: int, iv: Interval) {
    function Step(): int {
      iv.minutes * 60
    }
  }

  datatype Origin = Warm | Back | Live
  datatype Sent = Sent(close: int, origin: Origin)

  datatype Shared = Pending | Done | Abandoned

  /** The background task; it holds the lock while it is `Sending`. */
  datatype Task = NoTask | Fetching | Fetched(result: Option<seq<Candle>>) | Sending(rest: seq<Candle>) | Ended

  /** The feed handler: between events, handing out candles, or past the lock with the first of them. */
  datatype Handler = Idle | Handing(rest: seq<Candle>, fromPacket: bool) | Ready(rest: seq<Candle>, fromPacket: bool)

  /** `es` is what the aggregator has processed; `holds` says the handler still knows the shared state. */
  datatype World = World(
    es: seq<CR.Event>, handler: Handler, sent: seq<Sent>, gapTaken: bool, holds: bool, shared: Shared, task: Task,
    failed: bool)

  datatype Move =
    | OnPacket(p: Packet, now: int) | OnClock(now: int) | Lock | Send | AskGap
    | Fetch(raw: seq<Candle>, at: int) | GiveUp | TaskLock | TaskSend | TaskEnd

  // -------------------------------------------------------------------- the steps

  ghost predicate Running(w: World, u: Setup) {
    u.iv.minutes > 0 && CR.Exec(u.lc, u.Step(), w.es).Some?
  }

  ghost function RunOf(w: World, u: Setup): CR.Run
    requires Running(w, u)
  {
    CR.Exec(u.lc, u.Step(), w.es).value
  }

  ghost function Gap(w: World, u: Setup): Option<(int, int)>
    requires Running(w, u)
  {
    RunOf(w, u).agg.gap
  }

  /** One step; None when it is not enabled. */
  ghost function Next(w: World, u: Setup, m: Move): Option<World>
    requires Running(w, u)
  {
    match m
    case OnPacket(p, now) => if w.handler.Idle? then Some(AfterSnapshot(w, u, p, now)) else None
    case OnClock(now) => if w.handler.Idle? then Some(AfterTimer(w, u, now)) else None
    case Lock =>
      if w.handler.Handing? && |w.handler.rest| > 0 && !(w.holds && w.task.Sending?) then Some(AfterLock(w, u))
          else None
    case Send =>
      if w.handler.Ready? && |w.handler.rest| > 0 then Some(AfterSend(w, u)) else None
    case AskGap =>
      if w.handler.Handing? && |w.handler.rest| == 0 then Some(AfterAsk(w, Gap(w, u))) else None
    case Fetch(raw, at) => if w.task.Fetching? then Some(AfterFetch(w, u, Gap(w, u), raw, at)) else None
    case GiveUp => if w.task.Fetching? then Some(w.(task := Fetched(None))) else None
    case TaskLock => if w.task.Fetched? then Some(AfterTaskLock(w)) else None
    case TaskSend => if w.task.Sending? && |w.task.rest| > 0 then Some(AfterTaskSend(w, u)) else None
    case TaskEnd => if w.task.Sending? && |w.task.rest| == 0 then Some(w.(shared := Done, task := Ended)) else None
  }

  /** A snapshot: observe, then collect the bars that are due. A refused packet ends the run. */
  ghost function AfterSnapshot(w: World, u: Setup, p: Packet, now: int): World
    requires Running(w, u)
  {
    var r := CR.After(RunOf(w, u), CR.Seen(p));
    if w.failed then w
    else if r.None? then w.(failed := true)
    else w.(es := w.es + [CR.Seen(p)] + [CR.Tick(now)], handler := Handing(Published(Finished(r.value.agg, now)), true))
  }

  ghost function AfterTimer(w: World, u: Setup, now: int): World
    requires Running(w, u)
  {
    if w.failed then w
    else w.(es := w.es + [CR.Tick(now)], handler := Handing(Published(Finished(RunOf(w, u).agg, now)), false))
  }

  /** `publish_bar` up to its send: a pending backfill is abandoned. A bar that cannot be converted
      fails the run and is dropped. */
  ghost function AfterLock(w: World, u: Setup): World
    requires w.handler.Handing? && |w.handler.rest| > 0
  {
    if CloseNs(w.handler.rest[0], u.iv).None? then
      w.(failed := true, handler := Handing(w.handler.rest[1..], w.handler.fromPacket))
    else
      w.(handler := Ready(w.handler.rest, w.handler.fromPacket), holds := false,
         shared := if w.holds && w.shared == Pending then Abandoned else w.shared)
  }

  ghost function AfterSend(w: World, u: Setup): World
    requires w.handler.Ready? && |w.handler.rest| > 0
  {
    w.(sent := w.sent + [Sent(CloseNs(w.handler.rest[0], u.iv).GetOr(0), Live)],
       handler := Handing(w.handler.rest[1..], w.handler.fromPacket))
  }

  /** After a packet's bars: the gap, reported once, starts the task. */
  ghost function AfterAsk(w: World, gap: Option<(int, int)>): World
    requires w.handler.Handing?
  {
    if w.handler.fromPacket && !w.gapTaken && gap.Some?
    then w.(handler := Idle, gapTaken := true, holds := true, shared := Pending, task := Fetching)
    else w.(handler := Idle)
  }

  /** One attempt of the task: it succeeds with what `select` returns, or tries again. */
  ghost function AfterFetch(w: World, u: Setup, gap: Option<(int, int)>, raw: seq<Candle>, at: int): World
    requires u.iv.minutes > 0
  {
    if gap.Some? && gap.value.0 >= 0 && Selectable(raw, gap.value.0 * NS, gap.value.1 * NS, at, u.iv)
    then w.(task := Fetched(Some(Chosen(raw, gap.value.0 * NS, gap.value.1 * NS, at, u.iv))))
    else w
  }

  /** Whoever locks first decides. */
  ghost function AfterTaskLock(w: World): World
    requires w.task.Fetched?
  {
    if w.shared != Pending then w.(task := Ended)
    else if w.task.result.None? then w.(shared := Abandoned, task := Ended)
    else w.(task := Sending(w.task.result.value))
  }

  ghost function AfterTaskSend(w: World, u: Setup): World
    requires w.task.Sending? && |w.task.rest| > 0
  {
    var close := CloseNs(w.task.rest[0], u.iv);
    if close.None? then w.(task := Sending([]))
    else w.(sent := w.sent + [Sent(close.value, Back)], task := Sending(w.task.rest[1..]))
  }

  /** A first packet handled at `now`: it joined its bar part-way, or the bar is not due yet, or it starts
      at the warm-up close and there is no gap. */
  ghost predicate InTimeAt(u: Setup, p: Packet, now: int)
    requires u.iv.minutes > 0 && p.ts.Some?
  {
    var b := Bucket(p.ts.value, u.Step());
    p.ts.value > b || now < DueMs(b, u.Step()) || b == u.lc
  }

  ghost predicate InTime(w: World, u: Setup, m: Move)
    requires Running(w, u)
  {
    m.OnPacket? && !RunOf(w, u).agg.started && m.p.ts.Some? ==> InTimeAt(u, m.p, m.now)
  }

  // ------------------------------------------------------- what the aggregator hands over

  ghost function GapOf(lc: int, step: int, p: Packet): Option<(int, int)>
    requires step > 0 && p.ts.Some?
  {
    var b := Bucket(p.ts.value, step);
    var firstFull := if p.ts.value > b then b + step else b;
    if firstFull > lc then Some((lc, firstFull)) else None
  }

  lemma PacketGap(a: Agg, p: Packet)
    requires a.step > 0 && AfterPacket(a, p).1.None?
    ensures var b := AfterPacket(a, p).0;
            b.started && p.ts.Some? && (a.started ==> b.gap == a.gap)
  {
  }

  lemma FirstPacketGap(lc: int, step: int, p: Packet)
    requires step > 0 && AfterPacket(Fresh(lc, step), p).1.None?
    ensures p.ts.Some? && AfterPacket(Fresh(lc, step), p).0.gap == GapOf(lc, step, p)
  {
  }

  ghost predicate GapKnown(lc: int, step: int, a: Agg, ps: seq<Packet>)
    requires step > 0
  {
    if |ps| == 0 then a == Fresh(lc, step) else a.started && ps[0].ts.Some? && a.gap == GapOf(lc, step, ps[0])
  }

  /** The gap is set by the first packet and by no other event. */
  lemma {:induction false} GapIsFirst(lc: int, step: int, es: seq<CR.Event>)
    requires step > 0 && CR.Exec(lc, step, es).Some?
    ensures GapKnown(lc, step, CR.Exec(lc, step, es).value.agg, CS.PacketsOf(es))
  {
    if |es| > 0 {
      GapIsFirst(lc, step, Front(es));
      var r, ps := CR.Exec(lc, step, Front(es)).value, CS.PacketsOf(Front(es));
      match Last(es)
      case Seen(p) =>
        GapStep(lc, step, r.agg, ps, p);
        assert CS.PacketsOf(es) == ps + [p];
      case Tick(now) =>
        assert CS.PacketsOf(es) == ps + [] == ps;
    }
  }

  lemma GapStep(lc: int, step: int, a: Agg, ps: seq<Packet>, p: Packet)
    requires step > 0 && a.step == step && GapKnown(lc, step, a, ps) && AfterPacket(a, p).1.None?
    ensures GapKnown(lc, step, AfterPacket(a, p).0, ps + [p])
  {
    PacketGap(a, p);
    if |ps| == 0 {
      FirstPacketGap(lc, step, p);
    } else {
      assert (ps + [p])[0] == ps[0];
    }
  }

  function StartOf(c: Candle): int {
    if c.time.Some? then c.time.value.epoch else 0
  }

  /** Candles handed out start at the gap's end or later, one after the other. */
  ghost predicate Handable(out: seq<Candle>, limit: int) {
    && (forall i :: 0 <= i < |out| ==> out[i].time.Some? && out[i].time.value.nanos == 0 && StartOf(out[i]) >= limit)
    && (forall i, j :: 0 <= i < j < |out| ==> StartOf(out[i]) < StartOf(out[j]))
  }

  function Limit(lc: int, gap: Option<(int, int)>): int {
    if gap.Some? then gap.value.1 else lc
  }

  lemma {:induction false} OutIsHandable(lc: int, step: int, es: seq<CR.Event>)
    requires step > 0 && CR.Exec(lc, step, es).Some?
    ensures var r := CR.Exec(lc, step, es).value;
            Handable(r.out, Limit(lc, r.agg.gap))
                && (r.agg.gap.Some? ==> r.agg.gap.value.0 == lc && r.agg.gap.value.1 > lc)
  {
    var r := CR.Exec(lc, step, es).value;
    CS.EmittedInOrder(lc, step, es);
    CS.StreamIsGroupBy(lc, step, es);
    GapIsFirst(lc, step, es);
    var ps := CS.PacketsOf(es);
    CR.ExecKeeps(lc, step, es);
    CS.RunPackets(lc, step, es);
    forall i | 0 <= i < |r.out|
      ensures r.out[i].time.Some? && r.out[i].time.value.nanos == 0 && StartOf(r.out[i]) >= Limit(lc, r.agg.gap)
    {
      OutAfterGap(lc, step, r, ps, i);
    }
    forall i, j | 0 <= i < j < |r.out| ensures StartOf(r.out[i]) < StartOf(r.out[j]) {
      assert CS.Earlier(r.out[i], r.out[j]);
    }
  }

  lemma OutAfterGap(lc: int, step: int, r: CR.Run, ps: seq<Packet>, i: nat)
    requires step > 0 && r in CR.Sound(lc, step) && r.packets == ps && Sane(ps) && i < |r.out|
    requires r.out == CS.CandlesOf(if |r.finished| > 0 && CR.JoinedPartWay(ps, step) then r.finished[1..]
             else r.finished)
    requires GapKnown(lc, step, r.agg, ps)
    ensures r.out[i].time.Some? && r.out[i].time.value.nanos == 0 && StartOf(r.out[i]) >= Limit(lc, r.agg.gap)
  {
    var k := if CR.JoinedPartWay(ps, step) then i + 1 else i;
    var all := CR.Bars(r);
    assert all[k] == r.finished[k];
    assert r.out[i] == CandleOf(all[k]);
    FirstBarStart(lc, step, r, ps, k);
  }

  /** Bar `k` of a run does not start before the first packet's bucket; later bars are a step later. */
  lemma FirstBarStart(lc: int, step: int, r: CR.Run, ps: seq<Packet>, k: nat)
    requires step > 0 && r in CR.Sound(lc, step) && r.packets == ps && Sane(ps) && k < |CR.Bars(r)|
    ensures |ps| > 0 && CR.Bars(r)[k].start >= lc
    ensures CR.Bars(r)[k].start >= Bucket(ps[0].ts.value, step) + if k > 0 then step else 0
  {
    var all := CR.Bars(r);
    assert CR.Standing(lc, |r.finished|, r.agg, all, k);
    assert CR.Joined(all, ps, step);
    assert all[0].start == Bucket(ps[0].ts.value, step);
    if k > 0 {
      assert CR.Standing(lc, |r.finished|, r.agg, all, 0);
      AlignedApart(all[0].start, all[k].start, step);
    }
  }

  // ------------------------------------------------------------------- the invariant

  ghost predicate Rising(sent: seq<Sent>) {
    forall i, j :: 0 <= i < j < |sent| ==> sent[i].close < sent[j].close
  }

  /** After a live bar only live bars are sent. */
  ghost predicate LiveLast(sent: seq<Sent>) {
    forall i, j :: 0 <= i < j < |sent| && sent[i].origin == Live ==> sent[j].origin == Live
  }

  ghost predicate NoLive(sent: seq<Sent>) {
    forall i :: 0 <= i < |sent| ==> sent[i].origin != Live
  }

  function BackCloses(sent: seq<Sent>): seq<int> {
    if |sent| == 0 then []
    else BackCloses(Front(sent)) + (if Last(sent).origin == Back then [Last(sent).close] else [])
  }

  function RestOf(h: Handler): seq<Candle> {
    if h.Idle? then [] else h.rest
  }

  function CloseOut(c: Candle, iv: Interval): int {
    StartOf(c) * NS + StepNs(iv)
  }

  /** What the handler still has to hand out is the end of what the aggregator handed over. */
  ghost predicate RestIsTail(rest: seq<Candle>, out: seq<Candle>) {
    |rest| <= |out| && rest == out[|out| - |rest|..]
  }

  /** How late a bar sent so far can close: `n` candles have left the handler. */
  ghost predicate SentBy(s: Sent, out: seq<Candle>, n: nat, u: Setup, limit: int)
    requires n <= |out|
  {
    match s.origin
    case Warm => s.close <= u.lc * NS
    case Back => s.close <= limit * NS
    case Live => n > 0 && limit * NS + StepNs(u.iv) <= s.close <= CloseOut(out[n - 1], u.iv)
  }

  ghost predicate AllSentBy(sent: seq<Sent>, out: seq<Candle>, n: nat, u: Setup, limit: int)
    requires n <= |out|
  {
    forall i :: 0 <= i < |sent| ==> SentBy(sent[i], out, n, u, limit)
  }

  /** Who may still send what. */
  ghost predicate Phase(w: World, gap: Option<(int, int)>) {
    var ok :=
      if !w.gapTaken then
        && w.task.NoTask? && !w.holds && BackCloses(w.sent) == []
        && (gap.Some? ==> w.handler == Handing([], true) && NoLive(w.sent))
      else
        && gap.Some? && !w.task.NoTask?
        && (w.shared == Pending ==> w.holds && NoLive(w.sent) && !w.handler.Ready? && !w.task.Ended?);
    ok
  }

  /** What the task has sent and will send. */
  ghost predicate TaskFills(task: Task, shared: Shared, sent: seq<int>, from: int, to: int, iv: Interval) {
    var ok :=
      match task
      case NoTask => sent == []
      case Fetching => sent == [] && shared != Done
      case Fetched(r) => sent == [] && shared != Done
          && (r.Some? ==> Closable(r.value, iv) && Fills(Closes(r.value, iv), from, to, StepNs(iv)))
      case Sending(rest) => shared == Pending && Closable(rest, iv)
          && Fills(sent + Closes(rest, iv), from, to, StepNs(iv))
      case Ended => (shared == Done ==> Fills(sent, from, to, StepNs(iv))) && (shared != Done ==> sent == []);
    ok
  }

  /** The bars sent and the bars still to hand out. */
  ghost predicate SendsOk(sent: seq<Sent>, h: Handler, out: seq<Candle>, u: Setup, limit: int) {
    var ok :=
      && RestIsTail(RestOf(h), out) && Rising(sent) && LiveLast(sent)
      && AllSentBy(sent, out, |out| - |RestOf(h)|, u, limit)
      && (h.Ready? ==> |h.rest| > 0 && CloseNs(h.rest[0], u.iv).Some?);
    ok
  }

  ghost predicate Good(w: World, u: Setup, out: seq<Candle>, gap: Option<(int, int)>) {
    && SendsOk(w.sent, w.handler, out, u, Limit(u.lc, gap))
    && Phase(w, gap)
    && TaskFills(w.task, w.shared, BackCloses(w.sent), u.lc * NS, Limit(u.lc, gap) * NS, u.iv)
  }

  ghost predicate Inv(w: World, u: Setup) {
    Running(w, u) && Good(w, u, RunOf(w, u).out, Gap(w, u))
  }

  ghost function Invariant(u: Setup): iset<World> {
    iset w: World | Inv(w, u)
  }

  lemma Into(w: World, u: Setup)
    requires Inv(w, u)
    ensures w in Invariant(u)
  {
  }

  /** What the aggregator guarantees of its candles and its gap. */
  ghost predicate Fed(u: Setup, out: seq<Candle>, gap: Option<(int, int)>) {
    && u.iv.minutes > 0 && Handable(out, Limit(u.lc, gap))
    && (gap.Some? ==> gap.value.0 == u.lc && gap.value.1 > u.lc)
  }

  // ------------------------------------------------------------------ the two senders

  lemma {:induction false} BackAppend(sent: seq<Sent>, s: Sent)
    ensures BackCloses(sent + [s]) == if s.origin == Back then BackCloses(sent) + [s.close] else BackCloses(sent)
  {
    assert Front(sent + [s]) == sent;
  }

  /** A close of the backfill sent so far is one of `BackCloses`. */
  lemma {:induction false} BackKnown(sent: seq<Sent>, i: nat)
    requires i < |sent| && sent[i].origin == Back
    ensures exists k :: 0 <= k < |BackCloses(sent)| && BackCloses(sent)[k] == sent[i].close
  {
    var f := BackCloses(Front(sent));
    if i < |sent| - 1 {
      BackKnown(Front(sent), i);
      var k :| 0 <= k < |f| && f[k] == sent[i].close;
      assert BackCloses(sent)[k] == sent[i].close;
    } else {
      assert BackCloses(sent)[|f|] == sent[i].close;
    }
  }

  lemma RisingMore(sent: seq<Sent>, s: Sent)
    requires Rising(sent) && forall i :: 0 <= i < |sent| ==> sent[i].close < s.close
    ensures Rising(sent + [s])
  {
  }

  lemma LiveLastMore(sent: seq<Sent>, s: Sent)
    requires LiveLast(sent) && (s.origin == Live || NoLive(sent))
    ensures LiveLast(sent + [s])
  {
  }

  /** The next live candle closes after everything sent. */
  lemma LiveIsLater(sent: seq<Sent>, out: seq<Candle>, n: nat, u: Setup, limit: int)
    requires u.iv.minutes > 0 && n < |out| && Handable(out, limit) && limit >= u.lc && AllSentBy(sent, out, n, u, limit)
    ensures forall i :: 0 <= i < |sent| ==> sent[i].close < CloseOut(out[n], u.iv)
  {
    forall i | 0 <= i < |sent| ensures sent[i].close < CloseOut(out[n], u.iv) {
      assert SentBy(sent[i], out, n, u, limit);
      if n > 0 {
        assert StartOf(out[n - 1]) < StartOf(out[n]);
      }
    }
  }

  /** The next backfill bar closes after everything sent while no live bar was. */
  lemma {:induction false} BackIsLater(sent: seq<Sent>, x: int, later: seq<int>, lc: int, to: int, step: int)
    requires NoLive(sent) && Fills(BackCloses(sent) + ([x] + later), lc, to, step)
    requires forall i :: 0 <= i < |sent| && sent[i].origin == Warm ==> sent[i].close <= lc
    ensures lc < x <= to && forall i :: 0 <= i < |sent| ==> sent[i].close < x
  {
    var back := BackCloses(sent);
    var xs := [lc] + (back + ([x] + later));
    var n := |back| + 1;
    assert xs[n] == x;
    GaplessRises(xs, 0, n, step);
    GaplessRises(xs, n, |xs| - 1, step);
    forall i | 0 <= i < |sent| ensures sent[i].close < x {
      if sent[i].origin == Back {
        BackKnown(sent, i);
        var k :| 0 <= k < |back| && back[k] == sent[i].close;
        assert xs[k + 1] == back[k];
        GaplessRises(xs, k + 1, n, step);
      }
    }
  }

  // ------------------------------------------------------------------- steps keep it

  lemma MoreSentBy(sent: seq<Sent>, s: Sent, out: seq<Candle>, n: nat, u: Setup, limit: int)
    requires n <= |out| && AllSentBy(sent, out, n, u, limit) && SentBy(s, out, n, u, limit)
    ensures AllSentBy(sent + [s], out, n, u, limit)
  {
  }

  /** Bounds only grow: more candles out, more of them handed, a later limit. */
  lemma SentByGrows(
      sent: seq<Sent>, out: seq<Candle>, n: nat, out2: seq<Candle>, n2: nat, u: Setup, limit: int, limit2: int)
    requires n <= n2 <= |out2| && n <= |out| && out <= out2 && Handable(out2, limit2)
    requires limit == limit2 || (limit <= limit2 && NoLive(sent))
    requires AllSentBy(sent, out, n, u, limit)
    ensures AllSentBy(sent, out2, n2, u, limit2)
  {
    forall i | 0 <= i < |sent| ensures SentBy(sent[i], out2, n2, u, limit2) {
      assert SentBy(sent[i], out, n, u, limit);
      if n > 0 {
        assert out2[n - 1] == out[n - 1];
        assert n < n2 ==> StartOf(out2[n - 1]) < StartOf(out2[n2 - 1]);
      }
    }
  }

  lemma SendStep(sent: seq<Sent>, h: Handler, out: seq<Candle>, u: Setup, limit: int)
    requires SendsOk(sent, h, out, u, limit) && h.Ready?
    requires u.iv.minutes > 0 && Handable(out, limit) && limit >= u.lc
    ensures |h.rest| > 0
    ensures SendsOk(sent + [Sent(CloseNs(h.rest[0], u.iv).GetOr(0), Live)], Handing(h.rest[1..], h.fromPacket), out, u,
            limit)
  {
    var n := |out| - |h.rest|;
    LiveIsLater(sent, out, n, u, limit);
    assert h.rest[0] == out[n] && h.rest[1..] == out[n + 1..];
    var s := Sent(CloseNs(h.rest[0], u.iv).value, Live);
    assert s.close == CloseOut(out[n], u.iv);
    RisingMore(sent, s);
    LiveLastMore(sent, s);
    SentByGrows(sent, out, n, out, n + 1, u, limit, limit);
    MoreSentBy(sent, s, out, n + 1, u, limit);
  }

  lemma SendKeeps(w: World, u: Setup, out: seq<Candle>, gap: Option<(int, int)>)
    requires Good(w, u, out, gap) && Fed(u, out, gap) && w.handler.Ready? && |w.handler.rest| > 0
    ensures Good(AfterSend(w, u), u, out, gap)
  {
    SendStep(w.sent, w.handler, out, u, Limit(u.lc, gap));
    BackAppend(w.sent, Sent(CloseNs(w.handler.rest[0], u.iv).GetOr(0), Live));
  }

  lemma DropStep(sent: seq<Sent>, rest: seq<Candle>, fromPacket: bool, out: seq<Candle>, u: Setup, limit: int)
    requires SendsOk(sent, Handing(rest, fromPacket), out, u, limit) && |rest| > 0 && Handable(out, limit)
    ensures SendsOk(sent, Handing(rest[1..], fromPacket), out, u, limit)
  {
    var n := |out| - |rest|;
    var less := Handing(rest[1..], fromPacket);
    assert RestOf(less) == out[n + 1..];
    SentByGrows(sent, out, n, out, n + 1, u, limit, limit);
    assert |out| - |RestOf(less)| == n + 1;
  }

  lemma ReadyStep(sent: seq<Sent>, rest: seq<Candle>, fromPacket: bool, out: seq<Candle>, u: Setup, limit: int)
    requires SendsOk(sent, Handing(rest, fromPacket), out, u, limit) && |rest| > 0 && CloseNs(rest[0], u.iv).Some?
    ensures SendsOk(sent, Ready(rest, fromPacket), out, u, limit)
  {
    assert RestOf(Ready(rest, fromPacket)) == RestOf(Handing(rest, fromPacket));
  }

  lemma LockKeeps(w: World, u: Setup, out: seq<Candle>, gap: Option<(int, int)>)
    requires Good(w, u, out, gap) && Fed(u, out, gap)
    requires w.handler.Handing? && |w.handler.rest| > 0 && !(w.holds && w.task.Sending?)
    ensures Good(AfterLock(w, u), u, out, gap)
  {
    if CloseNs(w.handler.rest[0], u.iv).None? {
      DropStep(w.sent, w.handler.rest, w.handler.fromPacket, out, u, Limit(u.lc, gap));
    } else {
      ReadyStep(w.sent, w.handler.rest, w.handler.fromPacket, out, u, Limit(u.lc, gap));
    }
  }

  lemma AskKeeps(w: World, u: Setup, out: seq<Candle>, gap: Option<(int, int)>)
    requires Good(w, u, out, gap) && w.handler.Handing? && |w.handler.rest| == 0
    ensures Good(AfterAsk(w, gap), u, out, gap)
  {
    var w2 := AfterAsk(w, gap);
    AskSends(w.sent, w.handler, out, u, Limit(u.lc, gap));
    AskPhase(w, gap);
    AskFills(w, gap, BackCloses(w.sent), u.lc * NS, Limit(u.lc, gap) * NS, u.iv);
    assert w2.sent == w.sent && w2.handler == Idle;
  }

  lemma AskSends(sent: seq<Sent>, h: Handler, out: seq<Candle>, u: Setup, limit: int)
    requires SendsOk(sent, h, out, u, limit) && h.Handing? && |h.rest| == 0
    ensures SendsOk(sent, Idle, out, u, limit)
  {
    assert RestOf(h) == RestOf(Idle);
  }

  lemma AskPhase(w: World, gap: Option<(int, int)>)
    requires Phase(w, gap) && w.handler.Handing?
    ensures Phase(AfterAsk(w, gap), gap)
  {
  }

  lemma AskFills(w: World, gap: Option<(int, int)>, back: seq<int>, from: int, to: int, iv: Interval)
    requires Phase(w, gap) && w.handler.Handing? && back == BackCloses(w.sent)
    requires TaskFills(w.task, w.shared, back, from, to, iv)
    ensures var w2 := AfterAsk(w, gap); TaskFills(w2.task, w2.shared, back, from, to, iv)
  {
  }

  lemma FetchKeeps(w: World, u: Setup, out: seq<Candle>, gap: Option<(int, int)>, raw: seq<Candle>, at: int)
    requires Good(w, u, out, gap) && Fed(u, out, gap) && w.task.Fetching?
    ensures Good(AfterFetch(w, u, gap, raw, at), u, out, gap) && Good(w.(task := Fetched(None)), u, out, gap)
  {
  }

  lemma TaskLockKeeps(w: World, u: Setup, out: seq<Candle>, gap: Option<(int, int)>)
    requires Good(w, u, out, gap) && w.task.Fetched?
    ensures Good(AfterTaskLock(w), u, out, gap)
  {
    if w.task.result.Some? {
      assert [] + Closes(w.task.result.value, u.iv) == Closes(w.task.result.value, u.iv);
    }
  }

  lemma {:induction false} ClosesHead(rest: seq<Candle>, iv: Interval)
    requires Closable(rest, iv) && |rest| > 0
    ensures Closable(rest[1..], iv) && CloseNs(rest[0], iv).Some?
    ensures Closes(rest, iv) == [CloseNs(rest[0], iv).value] + Closes(rest[1..], iv)
  {
  }

  lemma {:induction false} BackStep(
      sent: seq<Sent>, h: Handler, out: seq<Candle>, u: Setup, limit: int, x: int, later: seq<int>)
    requires SendsOk(sent, h, out, u, limit) && NoLive(sent)
    requires Fills(BackCloses(sent) + ([x] + later), u.lc * NS, limit * NS, StepNs(u.iv))
    ensures SendsOk(sent + [Sent(x, Back)], h, out, u, limit)
  {
    var n := |out| - |RestOf(h)|;
    assert forall i :: 0 <= i < |sent| ==> SentBy(sent[i], out, n, u, limit);
    BackIsLater(sent, x, later, u.lc * NS, limit * NS, StepNs(u.iv));
    var s := Sent(x, Back);
    RisingMore(sent, s);
    LiveLastMore(sent, s);
    MoreSentBy(sent, s, out, n, u, limit);
  }

  lemma {:induction false} BackFills(sent: seq<Sent>, rest: seq<Candle>, x: int, from: int, to: int, iv: Interval)
    requires Closable(rest, iv) && Fills(BackCloses(sent) + ([x] + Closes(rest, iv)), from, to, StepNs(iv))
    ensures TaskFills(Sending(rest), Pending, BackCloses(sent + [Sent(x, Back)]), from, to, iv)
  {
    BackAppend(sent, Sent(x, Back));
    assert BackCloses(sent) + ([x] + Closes(rest, iv)) == (BackCloses(sent) + [x]) + Closes(rest, iv);
  }

  lemma TaskSendKeeps(w: World, u: Setup, out: seq<Candle>, gap: Option<(int, int)>)
    requires Good(w, u, out, gap) && w.task.Sending? && |w.task.rest| > 0
    ensures Good(AfterTaskSend(w, u), u, out, gap)
  {
    var rest := w.task.rest;
    var limit := Limit(u.lc, gap);
    ClosesHead(rest, u.iv);
    var x, later := CloseNs(rest[0], u.iv).value, Closes(rest[1..], u.iv);
    BackStep(w.sent, w.handler, out, u, limit, x, later);
    BackFills(w.sent, rest[1..], x, u.lc * NS, limit * NS, u.iv);
  }

  lemma TaskEndKeeps(w: World, u: Setup, out: seq<Candle>, gap: Option<(int, int)>)
    requires Good(w, u, out, gap) && w.task.Sending? && |w.task.rest| == 0
    ensures Good(w.(shared := Done, task := Ended), u, out, gap)
  {
    assert BackCloses(w.sent) + [] == BackCloses(w.sent);
  }

  // --------------------------------------------------------------------- feed events

  lemma {:induction false} ExecMore(lc: int, step: int, es: seq<CR.Event>, e: CR.Event)
    requires step > 0 && CR.Exec(lc, step, es).Some?
    ensures CR.Exec(lc, step, es + [e]) == CR.After(CR.Exec(lc, step, es).value, e)
    ensures CS.PacketsOf(es + [e]) == CS.PacketsOf(es) + (if e.Seen? then [e.p] else [])
  {
    assert Front(es + [e]) == es;
  }

  lemma FedBy(w: World, u: Setup)
    requires Running(w, u)
    ensures Fed(u, RunOf(w, u).out, Gap(w, u))
  {
    OutIsHandable(u.lc, u.Step(), w.es);
  }

  /** A clock event hands over the candles that were due. */
  lemma TimerRuns(w: World, u: Setup, now: int)
    requires Running(w, u) && !w.failed
    ensures var w2 := AfterTimer(w, u, now);
            && Running(w2, u) && Gap(w2, u) == Gap(w, u)
            && RunOf(w, u).out <= RunOf(w2, u).out
            && w2.handler == Handing(RunOf(w2, u).out[|RunOf(w, u).out|..], false)
  {
    ExecMore(u.lc, u.Step(), w.es, CR.Tick(now));
  }

  /** A packet keeps the gap, unless it is the first: then, in time, it hands over nothing. */
  lemma SnapshotRuns(w: World, u: Setup, p: Packet, now: int)
    requires Running(w, u) && !w.failed && CR.After(RunOf(w, u), CR.Seen(p)).Some? && InTime(w, u, OnPacket(p, now))
    ensures var w2 := AfterSnapshot(w, u, p, now); var r := RunOf(w, u);
            && Running(w2, u)
            && (r.agg.started ==> Gap(w2, u) == Gap(w, u))
            && (!r.agg.started ==> Gap(w, u).None? && r.out == [] && (Gap(w2, u).Some? ==> RunOf(w2, u).out == []))
            && r.out <= RunOf(w2, u).out
            && w2.handler == Handing(RunOf(w2, u).out[|r.out|..], true)
  {
    var es1 := w.es + [CR.Seen(p)];
    ExecMore(u.lc, u.Step(), w.es, CR.Seen(p));
    ExecMore(u.lc, u.Step(), es1, CR.Tick(now));
    var r, r1 := RunOf(w, u), CR.Exec(u.lc, u.Step(), es1).value;
    if r.agg.started {
      PacketGap(r.agg, p);
    } else {
      GapIsFirst(u.lc, u.Step(), w.es);
      NothingOut(u, w.es);
      FirstPacketGap(u.lc, u.Step(), p);
      if GapOf(u.lc, u.Step(), p).Some? {
        FirstHandsNothing(u.lc, u.Step(), p, now);
      }
    }
  }

  lemma {:induction false} NothingOut(u: Setup, es: seq<CR.Event>)
    requires u.iv.minutes > 0 && CR.Exec(u.lc, u.Step(), es).Some? && |CS.PacketsOf(es)| == 0
    ensures CR.Exec(u.lc, u.Step(), es).value.out == []
  {
    CR.ExecKeeps(u.lc, u.Step(), es);
    CS.RunPackets(u.lc, u.Step(), es);
    CR.NothingYet(u.lc, u.Step(), CR.Exec(u.lc, u.Step(), es).value);
  }

  /** The first packet's bar is withheld or not due. */
  lemma FirstHandsNothing(lc: int, step: int, p: Packet, now: int)
    requires step > 0 && AfterPacket(Fresh(lc, step), p).1.None? && p.ts.Some?
    requires p.ts.value > Bucket(p.ts.value, step) || now < DueMs(Bucket(p.ts.value, step), step)
    ensures Published(Finished(AfterPacket(Fresh(lc, step), p).0, now)) == []
  {
    CR.FirstPacket(Fresh(lc, step), p);
    var a := AfterPacket(Fresh(lc, step), p).0;
    assert a.closing == [] && a.step == step;
    assert Finished(a, now) == [] || Finished(a, now) == [a.current.value];
    assert Published([]) == [] && Front([a.current.value]) == [];
  }

  /** From idle: more candles over, the same bars sent. */
  lemma FeedSends(
      sent: seq<Sent>, out: seq<Candle>, out2: seq<Candle>, u: Setup, limit: int, limit2: int, fromPacket: bool)
    requires SendsOk(sent, Idle, out, u, limit) && out <= out2 && Handable(out2, limit2)
    requires limit == limit2 || (limit <= limit2 && NoLive(sent))
    ensures SendsOk(sent, Handing(out2[|out|..], fromPacket), out2, u, limit2)
  {
    SentByGrows(sent, out, |out|, out2, |out|, u, limit, limit2);
  }

  lemma TimerKeeps(w: World, u: Setup, now: int)
    requires Inv(w, u) && w.handler.Idle?
    ensures Inv(AfterTimer(w, u, now), u)
  {
    if !w.failed {
      TimerRuns(w, u, now);
      var w2 := AfterTimer(w, u, now);
      FedBy(w2, u);
      FeedSends(w.sent, RunOf(w, u).out, RunOf(w2, u).out, u, Limit(u.lc, Gap(w, u)), Limit(u.lc, Gap(w, u)), false);
      IdleGap(w, Gap(w, u));
      PhaseFeeds(w, w2, Gap(w, u));
    }
  }

  /** Between events a known gap has been taken. */
  lemma IdleGap(w: World, gap: Option<(int, int)>)
    requires Phase(w, gap) && w.handler.Idle?
    ensures gap.Some? ==> w.gapTaken
  {
  }

  lemma PhaseFeeds(w: World, w2: World, gap: Option<(int, int)>)
    requires Phase(w, gap) && (gap.Some? ==> w.gapTaken) && w2.handler.Handing?
    requires w2 == w.(es := w2.es, handler := w2.handler)
    ensures Phase(w2, gap)
  {
  }

  /** Nothing was handed over, so nothing live was sent. */
  lemma NothingLive(sent: seq<Sent>, u: Setup, limit: int)
    requires SendsOk(sent, Idle, [], u, limit)
    ensures NoLive(sent)
  {
    forall i | 0 <= i < |sent| ensures sent[i].origin != Live {
      assert SentBy(sent[i], [], 0, u, limit);
    }
  }

  lemma FirstPhase(w: World, w2: World, gap: Option<(int, int)>)
    requires Phase(w, None) && NoLive(w.sent) && w2 == w.(es := w2.es, handler := w2.handler) && w2.handler.Handing?
    requires gap.Some? ==> w2.handler == Handing([], true)
    ensures Phase(w2, gap) && w.task.NoTask?
  {
  }

  lemma FillsNothingYet(shared: Shared, sent: seq<int>, from: int, to: int, to2: int, iv: Interval)
    requires TaskFills(NoTask, shared, sent, from, to, iv)
    ensures TaskFills(NoTask, shared, sent, from, to2, iv)
  {
  }

  lemma SnapshotKeeps(w: World, u: Setup, p: Packet, now: int)
    requires Inv(w, u) && w.handler.Idle? && InTime(w, u, OnPacket(p, now))
    ensures Inv(AfterSnapshot(w, u, p, now), u)
  {
    if !w.failed && CR.After(RunOf(w, u), CR.Seen(p)).Some? {
      SnapshotRuns(w, u, p, now);
      var w2 := AfterSnapshot(w, u, p, now);
      var gap, gap2 := Gap(w, u), Gap(w2, u);
      FedBy(w2, u);
      if !RunOf(w, u).agg.started {
        NothingLive(w.sent, u, Limit(u.lc, gap));
      }
      FeedSends(w.sent, RunOf(w, u).out, RunOf(w2, u).out, u, Limit(u.lc, gap), Limit(u.lc, gap2), true);
      if RunOf(w, u).agg.started {
        IdleGap(w, gap);
        PhaseFeeds(w, w2, gap);
      } else {
        FirstPhase(w, w2, gap2);
        FillsNothingYet(w.shared, BackCloses(w.sent), u.lc * NS, Limit(u.lc, gap) * NS, Limit(u.lc, gap2) * NS, u.iv);
      }
    }
  }

  lemma SameEvents(w: World, u: Setup, w2: World)
    requires Running(w, u) && w2.es == w.es && Good(w2, u, RunOf(w, u).out, Gap(w, u))
    ensures w2 in Invariant(u)
  {
  }

  lemma InvIs(w: World, u: Setup)
    requires w in Invariant(u)
    ensures Running(w, u) && Good(w, u, RunOf(w, u).out, Gap(w, u)) && Fed(u, RunOf(w, u).out, Gap(w, u))
  {
    FedBy(w, u);
  }

  lemma PacketMove(w: World, u: Setup, p: Packet, now: int)
    requires w in Invariant(u) && Running(w, u) && w.handler.Idle? && InTime(w, u, OnPacket(p, now))
    ensures AfterSnapshot(w, u, p, now) in Invariant(u)
  {
    SnapshotKeeps(w, u, p, now);
    Into(AfterSnapshot(w, u, p, now), u);
  }

  lemma ClockMove(w: World, u: Setup, now: int)
    requires w in Invariant(u) && Running(w, u) && w.handler.Idle?
    ensures AfterTimer(w, u, now) in Invariant(u)
  {
    TimerKeeps(w, u, now);
    Into(AfterTimer(w, u, now), u);
  }

  lemma LockMove(w: World, u: Setup)
    requires w in Invariant(u) && Running(w, u) && w.handler.Handing? && |w.handler.rest| > 0
             && !(w.holds && w.task.Sending?)
    ensures AfterLock(w, u) in Invariant(u)
  {
    InvIs(w, u);
    LockKeeps(w, u, RunOf(w, u).out, Gap(w, u));
    SameEvents(w, u, AfterLock(w, u));
  }

  lemma SendMove(w: World, u: Setup)
    requires w in Invariant(u) && Running(w, u) && w.handler.Ready? && |w.handler.rest| > 0
    ensures AfterSend(w, u) in Invariant(u)
  {
    InvIs(w, u);
    SendKeeps(w, u, RunOf(w, u).out, Gap(w, u));
    SameEvents(w, u, AfterSend(w, u));
  }

  lemma AskMove(w: World, u: Setup)
    requires w in Invariant(u) && Running(w, u) && w.handler.Handing? && |w.handler.rest| == 0
    ensures AfterAsk(w, Gap(w, u)) in Invariant(u)
  {
    InvIs(w, u);
    AskKeeps(w, u, RunOf(w, u).out, Gap(w, u));
    SameEvents(w, u, AfterAsk(w, Gap(w, u)));
  }

  /** A fetch that succeeds or is refused, and a fetch given up. */
  lemma FetchMove(w: World, u: Setup, raw: seq<Candle>, at: int)
    requires w in Invariant(u) && Running(w, u) && w.task.Fetching?
    ensures AfterFetch(w, u, Gap(w, u), raw, at) in Invariant(u) && w.(task := Fetched(None)) in Invariant(u)
  {
    InvIs(w, u);
    var out, gap := RunOf(w, u).out, Gap(w, u);
    FetchKeeps(w, u, out, gap, raw, at);
    SameEvents(w, u, AfterFetch(w, u, gap, raw, at));
    SameEvents(w, u, w.(task := Fetched(None)));
  }

  lemma TaskLockMove(w: World, u: Setup)
    requires w in Invariant(u) && Running(w, u) && w.task.Fetched?
    ensures AfterTaskLock(w) in Invariant(u)
  {
    InvIs(w, u);
    TaskLockKeeps(w, u, RunOf(w, u).out, Gap(w, u));
    SameEvents(w, u, AfterTaskLock(w));
  }

  lemma TaskSendMove(w: World, u: Setup)
    requires w in Invariant(u) && Running(w, u) && w.task.Sending? && |w.task.rest| > 0
    ensures AfterTaskSend(w, u) in Invariant(u)
  {
    InvIs(w, u);
    TaskSendKeeps(w, u, RunOf(w, u).out, Gap(w, u));
    SameEvents(w, u, AfterTaskSend(w, u));
  }

  lemma TaskEndMove(w: World, u: Setup)
    requires w in Invariant(u) && Running(w, u) && w.task.Sending? && |w.task.rest| == 0
    ensures w.(shared := Done, task := Ended) in Invariant(u)
  {
    InvIs(w, u);
    TaskEndKeeps(w, u, RunOf(w, u).out, Gap(w, u));
    SameEvents(w, u, w.(shared := Done, task := Ended));
  }

  lemma NextKeeps(w: World, u: Setup, m: Move)
    requires w in Invariant(u) && Running(w, u) && Next(w, u, m).Some? && InTime(w, u, m)
    ensures Next(w, u, m).value in Invariant(u)
  {
    match m
    case OnPacket(p, now) => PacketMove(w, u, p, now);
    case OnClock(now) => ClockMove(w, u, now);
    case Lock => LockMove(w, u);
    case Send => SendMove(w, u);
    case AskGap => AskMove(w, u);
    case Fetch(raw, at) => FetchMove(w, u, raw, at);
    case GiveUp => FetchMove(w, u, [], 0);
    case TaskLock => TaskLockMove(w, u);
    case TaskSend => TaskSendMove(w, u);
    case TaskEnd => TaskEndMove(w, u);
  }

  // ------------------------------------------------------------------- whole runs

  function WarmSent(closes: seq<int>): (r: seq<Sent>)
    ensures |r| == |closes| && forall i :: 0 <= i < |r| ==> r[i] == Sent(closes[i], Warm)
  {
    if |closes| == 0 then [] else WarmSent(Front(closes)) + [Sent(Last(closes), Warm)]
  }

  /** Warm-up bars in order, none after the warm-up close. */
  ghost predicate WarmOk(u: Setup, closes: seq<int>) {
    && u.iv.minutes > 0
    && (forall i :: 0 <= i < |closes| ==> closes[i] <= u.lc * NS)
    && (forall i, j :: 0 <= i < j < |closes| ==> closes[i] < closes[j])
  }

  /** The warm-up bars are sent, nothing has been received. */
  function Begin(warm: seq<int>): World {
    World([], Idle, WarmSent(warm), false, false, Pending, NoTask, false)
  }

  /** Any interleaving of the two sides; None when a step was not enabled. */
  ghost function Play(u: Setup, warm: seq<int>, moves: seq<Move>): (w: Option<World>)
    requires u.iv.minutes > 0
    ensures w.Some? ==> Running(w.value, u)
  {
    if |moves| == 0 then Some(Begin(warm))
    else
      var w := Play(u, warm, Front(moves));
      if w.None? then None
      else
        var w2 := Next(w.value, u, Last(moves));
        assert w2.Some? ==> Running(w2.value, u) by {
          if w2.Some? {
            NextRuns(w.value, u, Last(moves));
          }
        }
        w2
  }

  lemma SnapshotRunning(w: World, u: Setup, p: Packet, now: int)
    requires Running(w, u)
    ensures Running(AfterSnapshot(w, u, p, now), u)
  {
    if !w.failed && CR.After(RunOf(w, u), CR.Seen(p)).Some? {
      ExecMore(u.lc, u.Step(), w.es, CR.Seen(p));
      ExecMore(u.lc, u.Step(), w.es + [CR.Seen(p)], CR.Tick(now));
    }
  }

  lemma TimerRunning(w: World, u: Setup, now: int)
    requires Running(w, u)
    ensures Running(AfterTimer(w, u, now), u)
  {
    ExecMore(u.lc, u.Step(), w.es, CR.Tick(now));
  }

  /** Only feed events are events of the aggregator. */
  lemma OthersKeepEvents(w: World, u: Setup, m: Move)
    requires Running(w, u) && Next(w, u, m).Some? && !m.OnPacket? && !m.OnClock?
    ensures Next(w, u, m).value.es == w.es
  {
    match m
    case Lock => assert AfterLock(w, u).es == w.es;
    case Send => assert AfterSend(w, u).es == w.es;
    case AskGap => assert AfterAsk(w, Gap(w, u)).es == w.es;
    case Fetch(raw, at) => assert AfterFetch(w, u, Gap(w, u), raw, at).es == w.es;
    case GiveUp =>
    case TaskLock => assert AfterTaskLock(w).es == w.es;
    case TaskSend => assert AfterTaskSend(w, u).es == w.es;
    case TaskEnd =>
  }

  lemma NextRuns(w: World, u: Setup, m: Move)
    requires Running(w, u) && Next(w, u, m).Some?
    ensures Running(Next(w, u, m).value, u)
  {
    match m
    case OnPacket(p, now) => SnapshotRunning(w, u, p, now);
    case OnClock(now) => TimerRunning(w, u, now);
    case _ => OthersKeepEvents(w, u, m);
  }

  ghost predicate AllInTime(u: Setup, warm: seq<int>, moves: seq<Move>)
    requires u.iv.minutes > 0 && Play(u, warm, moves).Some?
  {
    |moves| == 0 || (AllInTime(u, warm, Front(moves)) && InTime(Play(u, warm, Front(moves)).value, u, Last(moves)))
  }

  lemma {:induction false} WarmHasNoBack(closes: seq<int>)
    ensures BackCloses(WarmSent(closes)) == []
  {
    if |closes| > 0 {
      WarmHasNoBack(Front(closes));
      BackAppend(WarmSent(Front(closes)), Sent(Last(closes), Warm));
    }
  }

  lemma {:induction false} BeginGood(u: Setup, warm: seq<int>)
    requires WarmOk(u, warm)
    ensures Good(Begin(warm), u, [], None)
  {
    WarmHasNoBack(warm);
  }

  lemma BeginKeeps(u: Setup, warm: seq<int>)
    requires WarmOk(u, warm)
    ensures Begin(warm) in Invariant(u)
  {
    BeginGood(u, warm);
    assert RunOf(Begin(warm), u) == CR.Start(u.lc, u.Step());
    SameEvents(Begin(warm), u, Begin(warm));
  }

  lemma {:induction false} PlayKeeps(u: Setup, warm: seq<int>, moves: seq<Move>)
    requires WarmOk(u, warm) && Play(u, warm, moves).Some? && AllInTime(u, warm, moves)
    ensures Play(u, warm, moves).value in Invariant(u)
  {
    if |moves| == 0 {
      BeginKeeps(u, warm);
    } else {
      PlayKeeps(u, warm, Front(moves));
      NextKeeps(Play(u, warm, Front(moves)).value, u, Last(moves));
    }
  }

  /** The backfill sends all of the gap or nothing of it, without a hole inside a day; live bars begin
      where it ends. */
  ghost predicate GapFilledOrLeft(w: World, u: Setup, gap: Option<(int, int)>) {
    var back := BackCloses(w.sent);
    && (w.gapTaken ==> gap.Some? && gap.value.0 == u.lc)
    && (w.gapTaken && w.shared == Done ==> Fills(back, u.lc * NS, gap.value.1 * NS, StepNs(u.iv)))
    && (!w.task.Sending? && !(w.gapTaken && w.shared == Done) ==> back == [])
  }

  ghost predicate LiveAfterGap(sent: seq<Sent>, limit: int, iv: Interval) {
    forall i :: 0 <= i < |sent| && sent[i].origin == Live ==> sent[i].close >= limit * NS + StepNs(iv)
  }

  lemma LiveBound(sent: seq<Sent>, h: Handler, out: seq<Candle>, u: Setup, limit: int)
    requires SendsOk(sent, h, out, u, limit)
    ensures Rising(sent) && LiveLast(sent) && LiveAfterGap(sent, limit, u.iv)
  {
    forall i | 0 <= i < |sent| && sent[i].origin == Live ensures sent[i].close >= limit * NS + StepNs(u.iv) {
      assert SentBy(sent[i], out, |out| - |RestOf(h)|, u, limit);
    }
  }

  lemma GapLaw(w: World, u: Setup, out: seq<Candle>, gap: Option<(int, int)>)
    requires Good(w, u, out, gap) && Fed(u, out, gap)
    ensures GapFilledOrLeft(w, u, gap)
  {
  }

  /** Over every interleaving, as long as the first packet comes in time: bars are sent with strictly
      increasing close times; after a live bar no backfill bar follows; the backfill sends all of the
      gap or nothing of it, and what it sends has no hole inside a day and ends exactly where the live
      bars begin. */
  lemma {:induction false} HandoffKeepsOrder(u: Setup, warm: seq<int>, moves: seq<Move>)
    requires WarmOk(u, warm) && Play(u, warm, moves).Some? && AllInTime(u, warm, moves)
    ensures var w := Play(u, warm, moves).value;
            && Rising(w.sent) && LiveLast(w.sent)
            && GapFilledOrLeft(w, u, Gap(w, u)) && LiveAfterGap(w.sent, Limit(u.lc, Gap(w, u)), u.iv)
  {
    PlayKeeps(u, warm, moves);
    var w := Play(u, warm, moves).value;
    InvIs(w, u);
    LiveBound(w.sent, w.handler, RunOf(w, u).out, u, Limit(u.lc, Gap(w, u)));
    GapLaw(w, u, RunOf(w, u).out, Gap(w, u));
  }

  // --------------------------------------------------------- when the first packet is late

  lemma {:induction false} PlayMore(u: Setup, warm: seq<int>, moves: seq<Move>, m: Move)
    requires u.iv.minutes > 0 && Play(u, warm, moves).Some?
    ensures Play(u, warm, moves + [m]) == Next(Play(u, warm, moves).value, u, m)
  {
    assert Front(moves + [m]) == moves;
  }

  /** A first packet exactly on a boundary after the warm-up, handled only when its bar is already due. */
  ghost predicate LateJoin(u: Setup, p: Packet, now: int) {
    && u.iv.minutes > 0 && AfterPacket(Fresh(u.lc, u.Step()), p).1.None? && p.ts.Some?
    && var b := Bucket(p.ts.value, u.Step());
       p.ts.value == b > u.lc >= 0 && now >= DueMs(b, u.Step())
  }

  /** A late join hands over its bar. */
  lemma LateSnapshot(u: Setup, warm: seq<int>, p: Packet, now: int)
    requires LateJoin(u, p, now)
    ensures var w := AfterSnapshot(Begin(warm), u, p, now);
            && Running(w, u) && Gap(w, u) == Some((u.lc, p.ts.value))
            && w == Begin(warm).(es := w.es, handler := w.handler)
            && w.handler.Handing? && |w.handler.rest| == 1 && w.handler.fromPacket
            && CloseNs(w.handler.rest[0], u.iv) == Some((p.ts.value + u.Step()) * NS)
  {
    var step := u.Step();
    CR.FirstPacket(Fresh(u.lc, step), p);
    FirstPacketGap(u.lc, step, p);
    var a := AfterPacket(Fresh(u.lc, step), p).0;
    LateBar(a, p, now);
    ExecMore(u.lc, step, [], CR.Seen(p));
    ExecMore(u.lc, step, [CR.Seen(p)], CR.Tick(now));
    assert [] + [CR.Seen(p)] == [CR.Seen(p)];
  }

  lemma LateBar(a: Agg, p: Packet, now: int)
    requires p.ts.Some? && p.price.Some? && a.closing == [] && now >= DueMs(p.ts.value, a.step)
    requires a.current == Some(NewBar(p.ts.value, p.price.value, 0, p.oi, false))
    ensures Published(Finished(a, now)) == [CandleOf(a.current.value)]
  {
    var bar := a.current.value;
    assert DueCount(a.closing, a.step, now) == 0;
    assert Finished(a, now) == [] + [bar] == [bar];
    OnePublished(bar);
  }

  lemma OnePublished(bar: Bar)
    requires !bar.partial
    ensures Published([bar]) == [CandleOf(bar)]
  {
    assert Front([bar]) == [] && Published([]) == [];
  }

  /** One candle handed out by a packet's handler, then the gap. */
  lemma HandOne(u: Setup, w: World, close: int)
    requires Running(w, u) && w.handler.Handing? && |w.handler.rest| == 1 && w.handler.fromPacket
    requires CloseNs(w.handler.rest[0], u.iv) == Some(close)
    requires !w.gapTaken && !w.holds && Gap(w, u).Some?
    ensures var w1 := AfterLock(w, u); var w2 := AfterSend(w1, u); var w3 := AfterAsk(w2, Gap(w, u));
            && Went(w, u, Lock) == Some(w1) && w1.es == w.es && Went(w1, u, Send) == Some(w2) && w2.es == w.es
            && Went(w2, u, AskGap) == Some(w3) && w3.es == w.es
            && w3.sent == w.sent + [Sent(close, Live)] && w3.task == Fetching && w3.shared == Pending
  {
    var w1 := AfterLock(w, u);
    HandLocks(u, w, close);
    HandSends(u, w1, close);
    HandAsks(u, AfterSend(w1, u));
  }

  lemma HandLocks(u: Setup, w: World, close: int)
    requires Running(w, u) && w.handler.Handing? && |w.handler.rest| == 1 && !w.holds
    requires CloseNs(w.handler.rest[0], u.iv) == Some(close)
    ensures var w1 := AfterLock(w, u);
            && Went(w, u, Lock) == Some(w1) && Running(w1, u)
            && w1 == w.(handler := Ready(w.handler.rest, w.handler.fromPacket), holds := false, shared := w.shared)
  {
    WentIs(w, u, Lock);
  }

  lemma HandSends(u: Setup, w: World, close: int)
    requires Running(w, u) && w.handler.Ready? && |w.handler.rest| == 1
    requires CloseNs(w.handler.rest[0], u.iv) == Some(close)
    ensures var w2 := AfterSend(w, u);
            && Went(w, u, Send) == Some(w2) && Running(w2, u)
            && w2 == w.(sent := w.sent + [Sent(close, Live)], handler := Handing([], w.handler.fromPacket))
  {
    WentIs(w, u, Send);
    assert w.handler.rest[1..] == [];
  }

  lemma HandAsks(u: Setup, w: World)
    requires Running(w, u) && w.handler.Handing? && |w.handler.rest| == 0 && w.handler.fromPacket
    requires !w.gapTaken && Gap(w, u).Some?
    ensures var w3 := AfterAsk(w, Gap(w, u));
            && Went(w, u, AskGap) == Some(w3) && w3.es == w.es && w3.sent == w.sent
            && w3.task == Fetching && w3.shared == Pending
  {
    WentIs(w, u, AskGap);
  }

  /** The handler's part of a late join: one live bar goes out before the gap is known. */
  lemma LateLive(u: Setup, warm: seq<int>, p: Packet, now: int) returns (moves: seq<Move>)
    requires LateJoin(u, p, now)
    ensures moves == [OnPacket(p, now)] + [Lock, Send, AskGap] && Play(u, warm, moves).Some?
    ensures var w := Play(u, warm, moves).value;
            && w.sent == WarmSent(warm) + [Sent((p.ts.value + u.Step()) * NS, Live)]
            && w.task == Fetching && w.shared == Pending && Gap(w, u) == Some((u.lc, p.ts.value))
  {
    LateSnapshot(u, warm, p, now);
    var w := AfterSnapshot(Begin(warm), u, p, now);
    HandOne(u, w, (p.ts.value + u.Step()) * NS);
    FirstPlayed(u, warm, OnPacket(p, now));
    var m1 := [OnPacket(p, now)];
    var w1 := AfterLock(w, u);
    var w2 := AfterSend(w1, u);
    PlayThree(u, warm, m1, Lock, Send, AskGap, w, w1, w2, AfterAsk(w2, Gap(w, u)));
    moves := m1 + [Lock, Send, AskGap];
  }

  ghost predicate IsNext(w: World, u: Setup, m: Move, r: Option<World>) {
    forall v {:trigger Next(v, u, m)} :: v == w && Running(v, u) ==> r == Next(v, u, m)
  }

  /** `Next`, with its formula in `WentIs`. */
  ghost function Went(w: World, u: Setup, m: Move): Option<World>
    requires Running(w, u)
  {
    assert IsNext(w, u, m, Next(w, u, m));
    var r :| IsNext(w, u, m, r);
    r
  }

  lemma {:induction false} WentIs(w: World, u: Setup, m: Move)
    requires Running(w, u)
    ensures Went(w, u, m) == Next(w, u, m)
  {
    assert IsNext(w, u, m, Went(w, u, m));
  }

  /** Three more moves. */
  lemma {:induction false} PlayThree(
    u: Setup, warm: seq<int>, moves: seq<Move>, x: Move, y: Move, z: Move, w0: World, w1: World, w2: World, w3: World)
    requires u.iv.minutes > 0 && Play(u, warm, moves) == Some(w0) && Running(w1, u) && Running(w2, u)
    requires Went(w0, u, x) == Some(w1) && Went(w1, u, y) == Some(w2) && Went(w2, u, z) == Some(w3)
    ensures Play(u, warm, moves + [x, y, z]) == Some(w3)
  {
    PlayOne(u, warm, moves, x, w0, w1);
    PlayOne(u, warm, moves + [x], y, w1, w2);
    PlayOne(u, warm, moves + [x] + [y], z, w2, w3);
    ThreeIs(moves, x, y, z);
  }

  lemma ThreeIs(moves: seq<Move>, x: Move, y: Move, z: Move)
    ensures moves + [x] + [y] + [z] == moves + [x, y, z]
  {
  }

  lemma {:induction false} PlayOne(u: Setup, warm: seq<int>, moves: seq<Move>, m: Move, w: World, w2: World)
    requires u.iv.minutes > 0 && Play(u, warm, moves) == Some(w) && Went(w, u, m) == Some(w2)
    ensures Play(u, warm, moves + [m]) == Some(w2)
  {
    PlayMore(u, warm, moves, m);
    WentIs(w, u, m);
  }

  /** For every late first packet and every history that fills the gap there is an interleaving that sends
      a backfill bar after a live bar that closes later. */
  lemma LateJoinBreaksOrder(
      u: Setup, warm: seq<int>, p: Packet, now: int, raw: seq<Candle>, at: int) returns (rest: seq<Move>)
    requires LateJoin(u, p, now) && Selectable(raw, u.lc * NS, p.ts.value * NS, at, u.iv)
    ensures Play(u, warm, [OnPacket(p, now)] + rest).Some?
            && !Rising(Play(u, warm, [OnPacket(p, now)] + rest).value.sent)
  {
    var m0 := LateLive(u, warm, p, now);
    var w := Play(u, warm, m0).value;
    var w3 := BackOne(u, warm, m0, w, p.ts.value, raw, at);
    NotRising(w.sent, w3.sent, p.ts.value * NS);
    rest := [Lock, Send, AskGap] + [Fetch(raw, at), TaskLock, TaskSend];
    assert [OnPacket(p, now)] + rest == m0 + [Fetch(raw, at), TaskLock, TaskSend];
  }

  /** The task's part: it fetches the gap and sends its first candle. */
  lemma BackOne(
      u: Setup, warm: seq<int>, moves: seq<Move>, w: World, to: int, raw: seq<Candle>, at: int) returns (w3: World)
    requires u.iv.minutes > 0 && Play(u, warm, moves) == Some(w)
    requires Running(w, u) && w.task == Fetching && w.shared == Pending && Gap(w, u) == Some((u.lc, to))
             && to > u.lc >= 0
    requires Selectable(raw, u.lc * NS, to * NS, at, u.iv)
    ensures Play(u, warm, moves + [Fetch(raw, at), TaskLock, TaskSend]) == Some(w3)
    ensures |w3.sent| == |w.sent| + 1 && w.sent <= w3.sent && Last(w3.sent).close <= to * NS
  {
    var cs := FetchOne(u, w, Gap(w, u), raw, at);
    FetchEnabled(u, w, raw, at);
    var close := CloseNs(cs[0], u.iv).value;
    LockOne(u, w, cs);
    SendOne(u, w, cs, close);
    var w1, w2 := w.(task := Fetched(Some(cs))), w.(task := Sending(cs));
    w3 := w.(sent := w.sent + [Sent(close, Back)], task := Sending(cs[1..]));
    PlayThree(u, warm, moves, Fetch(raw, at), TaskLock, TaskSend, w, w1, w2, w3);
  }

  lemma NotRising(sent: seq<Sent>, more: seq<Sent>, to: int)
    requires |sent| > 0 && Last(sent).close > to && |more| == |sent| + 1 && sent <= more && Last(more).close <= to
    ensures !Rising(more)
  {
    assert more[|sent| - 1] == Last(sent);
  }

  /** The task fetches the gap. */
  lemma FetchOne(u: Setup, w: World, gap: Option<(int, int)>, raw: seq<Candle>, at: int) returns (cs: seq<Candle>)
    requires u.iv.minutes > 0 && gap.Some? && gap.value.1 > gap.value.0 >= 0
    requires Selectable(raw, gap.value.0 * NS, gap.value.1 * NS, at, u.iv)
    ensures AfterFetch(w, u, gap, raw, at) == w.(task := Fetched(Some(cs)))
    ensures |cs| > 0 && CloseNs(cs[0], u.iv).Some? && CloseNs(cs[0], u.iv).value <= gap.value.1 * NS
  {
    cs := Chosen(raw, gap.value.0 * NS, gap.value.1 * NS, at, u.iv);
    FilledIsSome(cs, gap.value.0 * NS, gap.value.1 * NS, u.iv);
  }

  lemma {:induction false} FetchEnabled(u: Setup, w: World, raw: seq<Candle>, at: int)
    requires Running(w, u) && w.task.Fetching?
    ensures Went(w, u, Fetch(raw, at)) == Some(AfterFetch(w, u, Gap(w, u), raw, at))
  {
    WentIs(w, u, Fetch(raw, at));
  }

  /** It takes the lock. */
  lemma LockOne(u: Setup, w: World, cs: seq<Candle>)
    requires Running(w, u) && w.shared == Pending
    ensures var w1 := w.(task := Fetched(Some(cs)));
            Running(w1, u) && Went(w1, u, TaskLock) == Some(w.(task := Sending(cs)))
  {
    LockEnabled(u, w.(task := Fetched(Some(cs))), cs);
  }

  lemma LockEnabled(u: Setup, w: World, cs: seq<Candle>)
    requires Running(w, u) && w.shared == Pending && w.task == Fetched(Some(cs))
    ensures Went(w, u, TaskLock) == Some(w.(task := Sending(cs)))
  {
    LockTaken(w, cs);
    WentIs(w, u, TaskLock);
  }

  lemma LockTaken(w: World, cs: seq<Candle>)
    requires w.shared == Pending && w.task == Fetched(Some(cs))
    ensures AfterTaskLock(w) == w.(task := Sending(cs))
  {
  }

  /** It sends the first candle. */
  lemma SendOne(u: Setup, w: World, cs: seq<Candle>, close: int)
    requires Running(w, u) && |cs| > 0 && CloseNs(cs[0], u.iv) == Some(close)
    ensures var w2 := w.(task := Sending(cs));
            Running(w2, u) && Went(w2, u, TaskSend)
                == Some(w.(sent := w.sent + [Sent(close, Back)], task := Sending(cs[1..])))
  {
    var w2 := w.(task := Sending(cs));
    OneSent(u, w2, close);
    SendEnabled(u, w2);
    WentIs(w2, u, TaskSend);
  }

  lemma OneSent(u: Setup, w: World, close: int)
    requires w.task.Sending? && |w.task.rest| > 0 && CloseNs(w.task.rest[0], u.iv) == Some(close)
    ensures AfterTaskSend(w, u) == w.(sent := w.sent + [Sent(close, Back)], task := Sending(w.task.rest[1..]))
  {
  }

  lemma SendEnabled(u: Setup, w: World)
    requires Running(w, u) && w.task.Sending? && |w.task.rest| > 0
    ensures Next(w, u, TaskSend) == Some(AfterTaskSend(w, u))
  {
  }

  lemma {:induction false} FilledIsSome(cs: seq<Candle>, from: int, to: int, iv: Interval)
    requires Closable(cs, iv) && Fills(Closes(cs, iv), from, to, StepNs(iv)) && from < to
    ensures |cs| > 0 && CloseNs(cs[0], iv).Some? && CloseNs(cs[0], iv).value <= to
  {
    var xs := [from] + Closes(cs, iv);
    if |cs| > 0 {
      GaplessRises(xs, 1, |xs| - 1, StepNs(iv));
    }
  }

  // ------------------------------------------------------------- exactly when order is kept

  lemma {:induction false} NextStarted(w: World, u: Setup, m: Move)
    requires Running(w, u) && Next(w, u, m).Some? && RunOf(w, u).agg.started
    ensures Running(Next(w, u, m).value, u) && RunOf(Next(w, u, m).value, u).agg.started
  {
    NextRuns(w, u, m);
    match m
    case OnPacket(p, now) =>
      if !w.failed && CR.After(RunOf(w, u), CR.Seen(p)).Some? {
        PacketGap(RunOf(w, u).agg, p);
        ExecMore(u.lc, u.Step(), w.es, CR.Seen(p));
        ExecMore(u.lc, u.Step(), w.es + [CR.Seen(p)], CR.Tick(now));
      }
    case OnClock(now) => ExecMore(u.lc, u.Step(), w.es, CR.Tick(now));
    case _ => OthersKeepEvents(w, u, m);
  }

  lemma {:induction false} FirstPlayed(u: Setup, warm: seq<int>, m: Move)
    requires u.iv.minutes > 0
    ensures Play(u, warm, [m]) == Next(Begin(warm), u, m)
  {
    assert Play(u, warm, []) == Some(Begin(warm));
    PlayMore(u, warm, [], m);
    assert [] + [m] == [m];
  }

  lemma {:induction false} FirstStarts(u: Setup, warm: seq<int>, p: Packet, now: int)
    requires u.iv.minutes > 0 && AfterPacket(Fresh(u.lc, u.Step()), p).1.None?
    ensures Play(u, warm, [OnPacket(p, now)]) == Some(AfterSnapshot(Begin(warm), u, p, now))
    ensures RunOf(AfterSnapshot(Begin(warm), u, p, now), u).agg.started
  {
    FirstPlayed(u, warm, OnPacket(p, now));
    StartedAfter(u, Begin(warm), p, now);
  }

  lemma {:induction false} StartedAfter(u: Setup, w: World, p: Packet, now: int)
    requires u.iv.minutes > 0 && w.es == [] && !w.failed && AfterPacket(Fresh(u.lc, u.Step()), p).1.None?
    ensures Running(w, u) && Running(AfterSnapshot(w, u, p, now), u)
            && RunOf(AfterSnapshot(w, u, p, now), u).agg.started
  {
    PacketGap(Fresh(u.lc, u.Step()), p);
    ExecMore(u.lc, u.Step(), [], CR.Seen(p));
    ExecMore(u.lc, u.Step(), [] + [CR.Seen(p)], CR.Tick(now));
  }

  /** Once the first packet came in time, every move does. */
  lemma {:induction false} RestInTime(u: Setup, warm: seq<int>, p: Packet, now: int, moves: seq<Move>)
    requires u.iv.minutes > 0 && AfterPacket(Fresh(u.lc, u.Step()), p).1.None? && p.ts.Some? && InTimeAt(u, p, now)
    requires Play(u, warm, [OnPacket(p, now)] + moves).Some?
    ensures AllInTime(u, warm, [OnPacket(p, now)] + moves)
    ensures RunOf(Play(u, warm, [OnPacket(p, now)] + moves).value, u).agg.started
  {
    var first := [OnPacket(p, now)];
    if |moves| == 0 {
      assert first + moves == first;
      FirstInTime(u, warm, p, now);
    } else {
      var m := Last(moves);
      assert first + moves == (first + Front(moves)) + [m];
      assert Front((first + Front(moves)) + [m]) == first + Front(moves);
      RestInTime(u, warm, p, now, Front(moves));
      MoreInTime(u, warm, first + Front(moves), m);
    }
  }

  lemma {:induction false} FirstInTime(u: Setup, warm: seq<int>, p: Packet, now: int)
    requires u.iv.minutes > 0 && AfterPacket(Fresh(u.lc, u.Step()), p).1.None? && p.ts.Some? && InTimeAt(u, p, now)
    ensures Play(u, warm, [OnPacket(p, now)]).Some? && AllInTime(u, warm, [OnPacket(p, now)])
    ensures RunOf(Play(u, warm, [OnPacket(p, now)]).value, u).agg.started
  {
    FirstStarts(u, warm, p, now);
    assert Front([OnPacket(p, now)]) == [] && Play(u, warm, []) == Some(Begin(warm));
  }

  lemma {:induction false} MoreInTime(u: Setup, warm: seq<int>, moves: seq<Move>, m: Move)
    requires u.iv.minutes > 0 && Play(u, warm, moves).Some? && AllInTime(u, warm, moves)
    requires RunOf(Play(u, warm, moves).value, u).agg.started && Play(u, warm, moves + [m]).Some?
    ensures AllInTime(u, warm, moves + [m]) && RunOf(Play(u, warm, moves + [m]).value, u).agg.started
  {
    PlayMore(u, warm, moves, m);
    NextStarted(Play(u, warm, moves).value, u, m);
    assert Front(moves + [m]) == moves;
  }

  /** Every interleaving that begins with this packet sends bars in order. */
  ghost predicate KeepsOrder(u: Setup, warm: seq<int>, first: Move)
    requires u.iv.minutes > 0
  {
    forall moves :: Play(u, warm, [first] + moves).Some? ==> Rising(Play(u, warm, [first] + moves).value.sent)
  }

  lemma {:induction false} LateBreaks(u: Setup, warm: seq<int>, p: Packet, now: int, raw: seq<Candle>, at: int)
    requires LateJoin(u, p, now) && Selectable(raw, u.lc * NS, p.ts.value * NS, at, u.iv)
    ensures !KeepsOrder(u, warm, OnPacket(p, now))
  {
    var rest := LateJoinBreaksOrder(u, warm, p, now, raw, at);
    BrokenRun(u, warm, OnPacket(p, now), rest);
  }

  lemma {:induction false} BrokenRun(u: Setup, warm: seq<int>, first: Move, rest: seq<Move>)
    requires u.iv.minutes > 0 && Play(u, warm, [first] + rest).Some?
             && !Rising(Play(u, warm, [first] + rest).value.sent)
    ensures !KeepsOrder(u, warm, first)
  {
  }

  /** Whatever first packet is accepted, and whatever history fills its gap: all interleavings after it
      send bars in order exactly when it came in time. */
  lemma {:induction false} FirstPacketDecides(u: Setup, warm: seq<int>, p: Packet, now: int, raw: seq<Candle>, at: int)
    requires WarmOk(u, warm) && u.lc >= 0 && AfterPacket(Fresh(u.lc, u.Step()), p).1.None? && p.ts.Some?
    requires var gap := GapOf(u.lc, u.Step(), p); gap.Some? ==> Selectable(raw, u.lc * NS, gap.value.1 * NS, at, u.iv)
    ensures KeepsOrder(u, warm, OnPacket(p, now)) <==> InTimeAt(u, p, now)
  {
    CR.FirstPacket(Fresh(u.lc, u.Step()), p);
    if InTimeAt(u, p, now) {
      forall moves | Play(u, warm, [OnPacket(p, now)] + moves).Some?
        ensures Rising(Play(u, warm, [OnPacket(p, now)] + moves).value.sent)
      {
        RestInTime(u, warm, p, now, moves);
        HandoffKeepsOrder(u, warm, [OnPacket(p, now)] + moves);
      }
    } else {
      LateBreaks(u, warm, p, now, raw, at);
    }
  }
}
