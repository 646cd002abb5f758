/** The startup gap backfill (`apps/kite-node/src/native_node/live_backfill.rs`, `live_bars.rs`): which
    fetched candles fill the gap between the warm-up and the first whole live bar. */
module Backfill {
  import opened Common
  import opened Historical

  const NS: int := 1_000_000_000
  /** How long after its close the broker may still change a candle. */
  const FINALIZATION_DELAY_NS: int := 45 * NS

  function StepNs(iv: Interval): int {
    iv.minutes * 60 * NS
  }

  /** `close_for`: when a candle ends; none when its time does not parse or lies before the epoch. */
  function CloseNs(c: Candle, iv: Interval): Option<int> {
    if c.time.None? || c.time.value.epoch * NS + c.time.value.nanos < 0 then None
    else Some(c.time.value.epoch * NS + c.time.value.nanos + StepNs(iv))
  }

  /** The IST day of a time. */
  function DayOf(ns: int): int {
    (ns + IST_OFFSET * NS) / (86_400 * NS)
  }

  datatype GapFault = Invalid(fault: CandleFault) | BadClose | NotFinalized | OutOfOrder | Hole | NotReady

  // ------------------------------------------------------------------ the selection

  predicate Closable(cs: seq<Candle>, iv: Interval) {
    forall i :: 0 <= i < |cs| ==> CloseNs(cs[i], iv).Some?
  }

  /** Final at the broker at time `now`. */
  predicate IsFinal(c: Candle, now: int, iv: Interval)
    requires CloseNs(c, iv).Some?
  {
    CloseNs(c, iv).value <= Max(now - FINALIZATION_DELAY_NS, 0)
  }

  function FinalPart(cs: seq<Candle>, now: int, iv: Interval): (r: seq<Candle>)
    requires Closable(cs, iv)
    ensures Closable(r, iv)
  {
    if |cs| == 0 then []
    else FinalPart(Front(cs), now, iv) + (if IsFinal(Last(cs), now, iv) then [Last(cs)] else [])
  }

  /** The candles that close in `(from, to]`. */
  function GapPart(cs: seq<Candle>, from: int, to: int, iv: Interval): (r: seq<Candle>)
    requires Closable(cs, iv)
    ensures Closable(r, iv)
  {
    if |cs| == 0 then []
    else
      var close := CloseNs(Last(cs), iv).value;
      GapPart(Front(cs), from, to, iv) + (if from < close <= to then [Last(cs)] else [])
  }

  function Closes(cs: seq<Candle>, iv: Interval): (r: seq<int>)
    requires Closable(cs, iv)
    ensures |r| == |cs| && forall i :: 0 <= i < |r| ==> r[i] == CloseNs(cs[i], iv).value
  {
    if |cs| == 0 then [] else Closes(Front(cs), iv) + [CloseNs(Last(cs), iv).value]
  }

  /** One close follows the one before: later, and on the same IST day exactly one step later. */
  predicate Follows(prev: int, close: int, step: int) {
    close > prev && (DayOf(close) == DayOf(prev) ==> close == prev + step)
  }

  ghost predicate Gapless(xs: seq<int>, step: int) {
    forall i :: 0 < i < |xs| ==> Follows(xs[i - 1], xs[i], step)
  }

  /** The closes fill `(from, to]`: no hole inside a day, ending exactly at `to`. */
  ghost predicate Fills(closes: seq<int>, from: int, to: int, step: int) {
    Gapless([from] + closes, step) && Last([from] + closes) == to
  }

  /** The candles `select` looks at, when it gets that far. */
  ghost predicate Usables(raw: seq<Candle>, now: int, iv: Interval)
    requires iv.minutes > 0
  {
    |raw| > 0 && Valid(raw, iv.minutes) && Closable(raw, iv) && |FinalPart(raw, now, iv)| > 0
  }

  function Chosen(raw: seq<Candle>, from: int, to: int, now: int, iv: Interval): (r: seq<Candle>)
    requires Closable(raw, iv)
    ensures Closable(r, iv)
  {
    GapPart(FinalPart(raw, now, iv), from, to, iv)
  }

  ghost predicate Selectable(raw: seq<Candle>, from: int, to: int, now: int, iv: Interval)
    requires iv.minutes > 0
  {
    Usables(raw, now, iv) && Fills(Closes(Chosen(raw, from, to, now, iv), iv), from, to, StepNs(iv))
  }

  /** `broker_finalized_for`. */
  method Finalized(cs: seq<Candle>, now: int, iv: Interval) returns (r: Result<seq<Candle>, GapFault>)
    requires iv.minutes > 0
    ensures r.Ok? <==> Usables(cs, now, iv)
    ensures r.Ok? ==> r.value == FinalPart(cs, now, iv)
  {
    var v := ValidateFor(cs, iv);
    if v.Err? {
      return Err(Invalid(v.error));
    }
    var out := [];
    for i := 0 to |cs|
      invariant Closable(cs[..i], iv) && out == FinalPart(cs[..i], now, iv)
    {
      var close := CloseNs(cs[i], iv);
      if close.None? {
        return Err(BadClose);
      }
      assert Front(cs[..i + 1]) == cs[..i];
      if close.value <= Max(now - FINALIZATION_DELAY_NS, 0) {
        out := out + [cs[i]];
      }
    }
    assert cs[..|cs|] == cs;
    if |out| == 0 {
      return Err(NotFinalized);
    }
    r := Ok(out);
  }

  lemma GaplessMore(xs: seq<int>, x: int, step: int)
    requires |xs| > 0
    ensures Gapless(xs + [x], step) <==> Gapless(xs, step) && Follows(Last(xs), x, step)
  {
    var ys := xs + [x];
    if Gapless(ys, step) {
      assert Follows(ys[|xs| - 1], ys[|xs|], step);
      forall i | 0 < i < |xs| ensures Follows(xs[i - 1], xs[i], step) {
        assert Follows(ys[i - 1], ys[i], step);
      }
    }
  }

  lemma GaplessPrefix(xs: seq<int>, n: nat, step: int)
    requires n <= |xs| && Gapless(xs, step)
    ensures Gapless(xs[..n], step)
  {
    forall i | 0 < i < n ensures Follows(xs[..n][i - 1], xs[..n][i], step) {
      assert Follows(xs[i - 1], xs[i], step);
    }
  }

  /** The gap candles of a prefix are a prefix of the gap candles. */
  lemma {:induction false} GapPartPrefix(cs: seq<Candle>, n: nat, from: int, to: int, iv: Interval)
    requires n <= |cs| && Closable(cs, iv)
    ensures Closable(cs[..n], iv) && GapPart(cs[..n], from, to, iv) <= GapPart(cs, from, to, iv)
    decreases |cs|
  {
    if n < |cs| {
      GapPartPrefix(Front(cs), n, from, to, iv);
      assert Front(cs)[..n] == cs[..n];
    } else {
      assert cs[..n] == cs;
    }
  }

  lemma {:induction false} ClosesPrefix(a: seq<Candle>, b: seq<Candle>, iv: Interval)
    requires Closable(b, iv) && a <= b
    ensures Closable(a, iv) && Closes(a, iv) == Closes(b, iv)[..|a|]
  {
    assert forall i :: 0 <= i < |a| ==> a[i] == b[i];
  }

  lemma PrefixGapless(closes: seq<int>, n: nat, from: int, step: int)
    requires n <= |closes|
    ensures Gapless([from] + closes, step) ==> Gapless([from] + closes[..n], step)
  {
    assert ([from] + closes)[..n + 1] == [from] + closes[..n];
    if Gapless([from] + closes, step) {
      GaplessPrefix([from] + closes, n + 1, step);
    }
  }

  /** A hole seen part-way is a hole of the whole. */
  lemma {:induction false} GapStaysGapless(cs: seq<Candle>, n: nat, from: int, to: int, iv: Interval)
    requires n <= |cs| && Closable(cs, iv) && Closable(cs[..n], iv)
    requires Gapless([from] + Closes(GapPart(cs, from, to, iv), iv), StepNs(iv))
    ensures Gapless([from] + Closes(GapPart(cs[..n], from, to, iv), iv), StepNs(iv))
  {
    GapPartPrefix(cs, n, from, to, iv);
    ClosesPrefix(GapPart(cs[..n], from, to, iv), GapPart(cs, from, to, iv), iv);
    PrefixGapless(Closes(GapPart(cs, from, to, iv), iv), |GapPart(cs[..n], from, to, iv)|, from, StepNs(iv));
  }

  lemma {:induction false} OneMoreClose(out: seq<Candle>, c: Candle, iv: Interval)
    requires Closable(out, iv) && CloseNs(c, iv).Some?
    ensures Closable(out + [c], iv) && Closes(out + [c], iv) == Closes(out, iv) + [CloseNs(c, iv).value]
  {
    assert Front(out + [c]) == out;
  }

  /** The next candle of the gap: the closes so far stay gapless exactly when it follows the last. */
  lemma {:induction false} NextClose(fin: seq<Candle>, i: nat, from: int, to: int, iv: Interval)
    requires i < |fin| && Closable(fin, iv) && Closable(fin[..i], iv) && Closable(fin[..i + 1], iv)
    requires from < CloseNs(fin[i], iv).value <= to
    ensures var xs := Closes(GapPart(fin[..i], from, to, iv), iv);
            var more := Closes(GapPart(fin[..i + 1], from, to, iv), iv);
            && GapPart(fin[..i + 1], from, to, iv) == GapPart(fin[..i], from, to, iv) + [fin[i]]
            && more == xs + [CloseNs(fin[i], iv).value]
            && (Gapless([from] + more, StepNs(iv))
                <==> && Gapless([from] + xs, StepNs(iv))
                     && Follows(Last([from] + xs), CloseNs(fin[i], iv).value, StepNs(iv)))
  {
    assert Front(fin[..i + 1]) == fin[..i];
    var out := GapPart(fin[..i], from, to, iv);
    OneMoreClose(out, fin[i], iv);
    var xs, close := Closes(out, iv), CloseNs(fin[i], iv).value;
    GaplessMore([from] + xs, close, StepNs(iv));
    assert [from] + (xs + [close]) == ([from] + xs) + [close];
  }

  /** A candle that does not follow refuses the whole selection. */
  lemma {:induction false} Refuses(raw: seq<Candle>, from: int, to: int, now: int, iv: Interval, i: nat)
    requires iv.minutes > 0 && Usables(raw, now, iv) && i < |FinalPart(raw, now, iv)|
    requires var fin := FinalPart(raw, now, iv);
      && Closable(fin[..i], iv) && from < CloseNs(fin[i], iv).value <= to
      && !Follows(Last([from] + Closes(GapPart(fin[..i], from, to, iv), iv)), CloseNs(fin[i], iv).value, StepNs(iv))
    ensures !Selectable(raw, from, to, now, iv)
  {
    var fin := FinalPart(raw, now, iv);
    assert Closable(fin[..i + 1], iv);
    NextClose(fin, i, from, to, iv);
    if Gapless([from] + Closes(GapPart(fin, from, to, iv), iv), StepNs(iv)) {
      GapStaysGapless(fin, i + 1, from, to, iv);
    }
  }

  /** `select`: succeeds exactly when the final candles of the gap fill it, and returns them. */
  method Select(raw: seq<Candle>, from: int, to: int, now: int, iv: Interval) returns (r: Result<seq<Candle>, GapFault>)
    requires iv.minutes > 0
    ensures r.Ok? <==> Selectable(raw, from, to, now, iv)
    ensures r.Ok? ==> r.value == Chosen(raw, from, to, now, iv)
  {
    var f := Finalized(raw, now, iv);
    if f.Err? {
      return f;
    }
    var fin := f.value;
    var out: seq<Candle> := [];
    var prev := from;
    for i := 0 to |fin|
      invariant Closable(fin[..i], iv) && out == GapPart(fin[..i], from, to, iv)
      invariant Gapless([from] + Closes(out, iv), StepNs(iv)) && prev == Last([from] + Closes(out, iv))
    {
      var close := CloseNs(fin[i], iv).value;
      assert Front(fin[..i + 1]) == fin[..i];
      if from < close <= to {
        if !(close > prev) {
          Refuses(raw, from, to, now, iv, i);
          return Err(OutOfOrder);
        }
        if DayOf(close) == DayOf(prev) && close != prev + StepNs(iv) {
          Refuses(raw, from, to, now, iv, i);
          return Err(Hole);
        }
        NextClose(fin, i, from, to, iv);
        prev := close;
        out := out + [fin[i]];
      }
    }
    assert fin[..|fin|] == fin;
    if prev != to {
      return Err(NotReady);
    }
    r := Ok(out);
  }

  // ----------------------------------------------------------------- what filling means

  lemma {:induction false} GaplessRises(xs: seq<int>, i: nat, j: nat, step: int)
    requires Gapless(xs, step) && i <= j < |xs|
    ensures xs[i] <= xs[j] && (i < j ==> xs[i] < xs[j])
    decreases j - i
  {
    if i < j {
      GaplessRises(xs, i, j - 1, step);
      assert Follows(xs[j - 1], xs[j], step);
    }
  }

  lemma DayMono(x: int, y: int)
    requires x <= y
    ensures DayOf(x) <= DayOf(y)
  {
  }

  /** Inside one IST day the closes are evenly spaced. */
  lemma {:induction false} SameDaySpacing(xs: seq<int>, i: nat, j: nat, step: int)
    requires Gapless(xs, step) && i <= j < |xs| && DayOf(xs[i]) == DayOf(xs[j])
    ensures xs[j] == xs[i] + (j - i) * step
    decreases j - i
  {
    if i < j {
      GaplessRises(xs, i, j - 1, step);
      GaplessRises(xs, j - 1, j, step);
      DayMono(xs[i], xs[j - 1]);
      DayMono(xs[j - 1], xs[j]);
      SameDaySpacing(xs, i, j - 1, step);
      assert Follows(xs[j - 1], xs[j], step);
      assert (j - i) * step == (j - 1 - i) * step + step;
    }
  }

  lemma StepsFit(m: int, k: int, step: int)
    requires step > 0 && m * step <= k * step
    ensures m <= k
  {
    if m > k {
      MulMono(k + 1, m, step);
    }
  }

  /** No hole inside a day: every grid time between two closes of one day is itself a close. */
  lemma NoHoleInADay(closes: seq<int>, from: int, to: int, step: int, i: nat, j: nat, m: nat)
    requires step > 0 && Fills(closes, from, to, step) && i <= j <= |closes|
    requires var xs := [from] + closes; DayOf(xs[i]) == DayOf(xs[j]) && xs[i] + m * step <= xs[j]
    ensures var xs := [from] + closes; i + m <= j && xs[i + m] == xs[i] + m * step
  {
    var xs := [from] + closes;
    SameDaySpacing(xs, i, j, step);
    StepsFit(m, j - i, step);
    GaplessRises(xs, i, i + m, step);
    GaplessRises(xs, i + m, j, step);
    DayMono(xs[i], xs[i + m]);
    DayMono(xs[i + m], xs[j]);
    SameDaySpacing(xs, i, i + m, step);
  }
}
