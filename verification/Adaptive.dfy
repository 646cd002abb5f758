/** The adaptive filter of the WVAD sum (`Adaptive` in `crates/wvad/src/filters.rs`): nine kinds, two
    of them chains of filters that feed each other. */
module Adaptive {
  import opened Common
  import opened Filters

  datatype Kind = NoFilter | OfSma | OfEma | OfRma | DoubleWma | TripleVwma | OfHma | OfLlama | OfKalman

  /** One bar: the WVAD sum, absent while it is not available, and the bar's volume. */
  datatype Input = Input(x: Option<real>, volume: real)

  // -------------------------------------------------------------- what it computes

  /** Every value the weighted mean gave along `xs`. */
  ghost function WmaOuts(xs: seq<real>, len: nat): seq<real>
    requires len >= 1
  {
    if |xs| == 0 then [] else WmaOuts(Front(xs), len) + OptSeq(WmaAt(xs, len))
  }

  /** Every value the volume-weighted mean gave along `ss`, with the volume of its bar. */
  ghost function VwmaOuts(ss: seq<Sample>, len: nat): seq<Sample>
    requires len >= 1
  {
    if |ss| == 0 then [] else VwmaOuts(Front(ss), len) + WithVolume(VwmaAt(ss, len), Last(ss).volume)
  }

  function WithVolume(x: Option<real>, volume: real): seq<Sample> {
    if x.Some? then [Sample(x.value, volume)] else []
  }

  /** The mean of the mean. */
  ghost function DoubleWmaAt(xs: seq<real>, len: nat): Option<real>
    requires len >= 1
  {
    if WmaAt(xs, len).None? then None else WmaAt(WmaOuts(xs, len), len)
  }

  ghost function DoubleVwmaAt(ss: seq<Sample>, len: nat): Option<real>
    requires len >= 1
  {
    if VwmaAt(ss, len).None? then None else VwmaAt(VwmaOuts(ss, len), len)
  }

  ghost function TripleVwmaAt(ss: seq<Sample>, len: nat): Option<real>
    requires len >= 1
  {
    if DoubleVwmaAt(ss, len).None? then None else VwmaAt(VwmaOuts(VwmaOuts(ss, len), len), len)
  }

  /** The bars that have a WVAD sum. */
  function Present(ins: seq<Input>): seq<Sample> {
    if |ins| == 0 then [] else Present(Front(ins)) + WithVolume(Last(ins).x, Last(ins).volume)
  }

  function Values(ss: seq<Sample>): (xs: seq<real>)
    ensures |xs| == |ss|
  {
    if |ss| == 0 then [] else Values(Front(ss)) + [Last(ss).x]
  }

  function Sums(ins: seq<Input>): (xs: seq<Option<real>>)
    ensures |xs| == |ins| && forall i :: 0 <= i < |ins| ==> xs[i] == ins[i].x
  {
    if |ins| == 0 then [] else Sums(Front(ins)) + [Last(ins).x]
  }

  function Length(kind: Kind, len: nat): nat {
    var least := if kind == OfHma then 2 else 1;
    if len < least then least else len
  }

  ghost function Formula(kind: Kind, len: nat, ss: seq<Sample>): Option<real>
    requires len == Length(kind, len)
  {
    match kind
    case OfSma => SmaAt(Values(ss), len)
    case OfEma => EmaAt(Values(ss), len)
    case OfRma => RmaAt(Values(ss), len)
    case DoubleWma => DoubleWmaAt(Values(ss), len)
    case TripleVwma => TripleVwmaAt(ss, len)
    case OfHma => HmaAt(Values(ss), len)
    case OfLlama => LlamaAt(Values(ss), len)
    case _ => if |ss| == 0 then None else Some(Last(ss).x)
  }

  ghost predicate IsAnswer(kind: Kind, len: nat, ss: seq<Sample>, r: Option<real>) {
    forall n: nat | n == len && n == Length(kind, n) :: r == Formula(kind, n, ss)
  }

  /** A kind other than Kalman over the values it was given: its formula, see `OnValuesIs`. */
  ghost function OnValues(kind: Kind, len: nat, ss: seq<Sample>): Option<real>
    requires len == Length(kind, len)
  {
    assert IsAnswer(kind, len, ss, Formula(kind, len, ss));
    var r :| IsAnswer(kind, len, ss, r);
    r
  }

  lemma OnValuesIs(kind: Kind, len: nat, ss: seq<Sample>)
    requires len == Length(kind, len)
    ensures OnValues(kind, len, ss) == Formula(kind, len, ss)
  {
    assert IsAnswer(kind, len, ss, OnValues(kind, len, ss));
    var n := len;
    assert OnValues(kind, len, ss) == Formula(kind, n, ss);
  }

  lemma {:induction false} OnSma(len: nat, ss: seq<Sample>)
    requires len >= 1
    ensures OnValues(OfSma, len, ss) == SmaAt(Values(ss), len)
  {
    OnValuesIs(OfSma, len, ss);
  }

  lemma {:induction false} OnEma(len: nat, ss: seq<Sample>)
    requires len >= 1
    ensures OnValues(OfEma, len, ss) == EmaAt(Values(ss), len)
  {
    OnValuesIs(OfEma, len, ss);
  }

  lemma {:induction false} OnRma(len: nat, ss: seq<Sample>)
    requires len >= 1
    ensures OnValues(OfRma, len, ss) == RmaAt(Values(ss), len)
  {
    OnValuesIs(OfRma, len, ss);
  }

  lemma {:induction false} OnDoubleWma(len: nat, ss: seq<Sample>)
    requires len >= 1
    ensures OnValues(DoubleWma, len, ss) == DoubleWmaAt(Values(ss), len)
  {
    OnValuesIs(DoubleWma, len, ss);
  }

  lemma OnTripleVwma(len: nat, ss: seq<Sample>)
    requires len >= 1
    ensures OnValues(TripleVwma, len, ss) == TripleVwmaAt(ss, len)
  {
    OnValuesIs(TripleVwma, len, ss);
  }

  lemma {:induction false} OnHma(len: nat, ss: seq<Sample>)
    requires len >= 2
    ensures OnValues(OfHma, len, ss) == HmaAt(Values(ss), len)
  {
    OnValuesIs(OfHma, len, ss);
  }

  lemma {:induction false} OnLlama(len: nat, ss: seq<Sample>)
    requires len >= 1
    ensures OnValues(OfLlama, len, ss) == LlamaAt(Values(ss), len)
  {
    OnValuesIs(OfLlama, len, ss);
  }

  lemma OnNone(len: nat, ss: seq<Sample>)
    requires len >= 1
    ensures OnValues(NoFilter, len, ss) == if |ss| == 0 then None else Some(Last(ss).x)
  {
    OnValuesIs(NoFilter, len, ss);
  }

  /** The filtered value of the last bar of `ins`. */
  ghost function AdaptiveAt(kind: Kind, len: nat, ins: seq<Input>): Option<real>
    requires len == Length(kind, len)
  {
    if kind == OfKalman then KalmanAt(Sums(ins), Share(len))
    else if |ins| == 0 || Last(ins).x.None? then None
    else OnValues(kind, len, Present(ins))
  }

  // -------------------------------------------------------------- chained filters

  /** Two weighted means in a row. */
  class WmaChain {
    const first: Wma
    const second: Wma
    const len: nat
    ghost const repr: set<object>

    ghost predicate Valid()
      reads repr
    {
      var ok :=
        && repr == {first.w, second.w} && first.w != second.w
        && len >= 1 && first.w.len == len && second.w.len == len
        && second.Seen() == WmaOuts(first.Seen(), len)
        && first.Valid() && second.Valid();
      ok
    }

    ghost function Seen(): seq<real>
      reads first.w
    {
      first.Seen()
    }

    constructor (len: nat)
      ensures Valid() && fresh(repr) && this.len == Max(len, 1) && Seen() == []
    {
      var first := new Wma(len);
      var second := new Wma(len);
      this.len, this.first, this.second := if len < 1 then 1 else len, first, second;
      this.repr := {first.w, second.w};
    }

    method Update(x: real) returns (r: Option<real>)
      requires Valid()
      modifies repr
      ensures Valid() && Seen() == old(Seen()) + [x] && r == DoubleWmaAt(Seen(), len)
    {
      WmaAppend(Seen(), x, len);
      var v := first.Update(x);
      r := None;
      if v.Some? {
        r := second.Update(v.value);
      }
    }
  }

  lemma {:induction false} WmaAppend(xs: seq<real>, x: real, len: nat)
    requires len >= 1
    ensures var v := WmaAt(xs + [x], len);
            WmaOuts(xs + [x], len) == if v.Some? then WmaOuts(xs, len) + [v.value] else WmaOuts(xs, len)
  {
    assert Front(xs + [x]) == xs;
  }

  /** Two volume-weighted means in a row: the first two of the three. */
  class VwmaPair {
    const first: Vwma
    const second: Vwma
    const len: nat
    ghost const repr: set<object>

    ghost predicate Valid()
      reads repr
    {
      var ok :=
        && repr == first.repr + second.repr && first.repr !! second.repr && first in repr && second in repr
        && first.len == len && second.len == len && len >= 1
        && second.seen == VwmaOuts(first.seen, len)
        && first.Valid() && second.Valid();
      ok
    }

    ghost function Seen(): seq<Sample>
      reads first
    {
      first.seen
    }

    constructor (len: nat)
      ensures Valid() && fresh(repr) && this.len == Max(len, 1) && Seen() == []
    {
      this.len := if len < 1 then 1 else len;
      var a := new Vwma(len);
      var b := new Vwma(len);
      this.first := a;
      this.second := b;
      this.repr := a.repr + b.repr;
    }

    method Update(x: real, vol: real) returns (r: Option<real>)
      requires Valid()
      modifies repr
      ensures Valid() && Seen() == old(Seen()) + [Sample(x, vol)] && r == DoubleVwmaAt(Seen(), len)
    {
      ghost var was := second.seen;
      var v1 := first.Update(x, vol);
      ghost var kept := second.Valid();
      assert kept && second.seen == was;
      VwmaAppend(old(Seen()), x, vol, len, v1);
      r := None;
      if v1.Some? {
        r := second.Update(v1.value, vol);
      }
    }
  }

  /** Three volume-weighted means in a row. */
  class VwmaChain {
    const pair: VwmaPair
    const third: Vwma
    const len: nat
    ghost const repr: set<object>

    ghost predicate Valid()
      reads repr
    {
      var ok :=
        && repr == pair.repr + third.repr && pair.repr !! third.repr && pair.first in repr && third in repr
        && pair.len == len && third.len == len && len >= 1
        && third.seen == Twice(pair.Seen(), len)
        && pair.Valid() && third.Valid();
      ok
    }

    ghost function Seen(): seq<Sample>
      reads pair.first
    {
      pair.Seen()
    }

    constructor (len: nat)
      ensures Valid() && fresh(repr) && this.len == Max(len, 1) && Seen() == []
    {
      this.len := if len < 1 then 1 else len;
      var a := new VwmaPair(len);
      var b := new Vwma(len);
      this.pair := a;
      this.third := b;
      this.repr := a.repr + b.repr;
    }

    method Update(x: real, vol: real) returns (r: Option<real>)
      requires Valid()
      modifies repr
      ensures Valid() && Seen() == old(Seen()) + [Sample(x, vol)] && r == TripleVwmaAt(Seen(), len)
    {
      ghost var was := third.seen;
      var v2 := pair.Update(x, vol);
      ghost var kept := third.Valid();
      assert kept && third.seen == was;
      TwiceAppend(old(Seen()), x, vol, len, v2);
      r := None;
      if v2.Some? {
        r := third.Update(v2.value, vol);
      }
    }
  }

  /** What the third mean is fed. */
  ghost function Twice(ss: seq<Sample>, len: nat): seq<Sample>
    requires len >= 1
  {
    VwmaOuts(VwmaOuts(ss, len), len)
  }

  lemma {:induction false} VwmaAppend(ss: seq<Sample>, x: real, vol: real, len: nat, v: Option<real>)
    requires len >= 1 && v == VwmaAt(ss + [Sample(x, vol)], len)
    ensures var all := ss + [Sample(x, vol)];
            VwmaOuts(all, len) == if v.Some? then VwmaOuts(ss, len) + [Sample(v.value, vol)] else VwmaOuts(ss, len)
  {
    assert Front(ss + [Sample(x, vol)]) == ss;
  }

  lemma TwiceAppend(ss: seq<Sample>, x: real, vol: real, len: nat, v: Option<real>)
    requires len >= 1 && v == DoubleVwmaAt(ss + [Sample(x, vol)], len)
    ensures var all := ss + [Sample(x, vol)];
            Twice(all, len) == if v.Some? then Twice(ss, len) + [Sample(v.value, vol)] else Twice(ss, len)
  {
    var first := VwmaAt(ss + [Sample(x, vol)], len);
    VwmaAppend(ss, x, vol, len, first);
    if first.Some? {
      VwmaAppend(VwmaOuts(ss, len), first.value, vol, len, v);
    }
  }

  // -------------------------------------------------------------- the selected filter

  datatype Stage =
    | Plain | SmaStage(sma: Sma) | EmaStage(ema: Ema) | RmaStage(rma: Rma) | WmaStage(wmas: WmaChain)
    | VwmaStage(vwmas: VwmaChain) | HmaStage(hma: Hma) | LlamaStage(llama: Llama) | KalmanStage(kalman: Kalman)

  function KindOf(s: Stage): Kind {
    match s
    case Plain => NoFilter
    case SmaStage(_) => OfSma
    case EmaStage(_) => OfEma
    case RmaStage(_) => OfRma
    case WmaStage(_) => DoubleWma
    case VwmaStage(_) => TripleVwma
    case HmaStage(_) => OfHma
    case LlamaStage(_) => OfLlama
    case KalmanStage(_) => OfKalman
  }

  /** The objects a stage changes. */
  ghost function Parts(s: Stage): set<object> {
    match s
    case Plain => {}
    case SmaStage(f) => {f.w}
    case EmaStage(f) => {f}
    case RmaStage(f) => {f, f.seed.w}
    case WmaStage(f) => f.repr + {f.first.w}
    case VwmaStage(f) => f.repr + {f.pair.first}
    case HmaStage(f) => f.repr + {f.full.w}
    case LlamaStage(f) => f.repr + {f.history}
    case KalmanStage(f) => {f}
  }

  /** The stage has been fed the values `ss`; the Kalman filter is fed the bars without a value too. */
  ghost predicate Fed(s: Stage, len: nat, ss: seq<Sample>, sums: seq<Option<real>>)
    requires len >= 1
    reads Parts(s)
  {
    match s
    case Plain => true
    case SmaStage(f) => f.w.len == len && f.Seen() == Values(ss) && f.Valid()
    case EmaStage(f) => f.len == len && f.seen == Values(ss) && f.Valid()
    case RmaStage(f) => f.len == len && f.seen == Values(ss) && f.Valid()
    case WmaStage(f) => f.len == len && f.Seen() == Values(ss) && f.Valid()
    case VwmaStage(f) => f.len == len && f.Seen() == ss && f.Valid()
    case HmaStage(f) => f.len == len && f.Seen() == Values(ss) && f.Valid()
    case LlamaStage(f) => f.len == len && f.Seen() == Values(ss) && f.Valid()
    case KalmanStage(f) => f.q == Share(len) && f.seen == sums && f.Valid()
  }

  lemma {:induction false} PresentAppend(ins: seq<Input>, i: Input)
    ensures Present(ins + [i]) == if i.x.Some? then Present(ins) + [Sample(i.x.value, i.volume)] else Present(ins)
    ensures Sums(ins + [i]) == Sums(ins) + [i.x]
  {
    assert Front(ins + [i]) == ins;
  }

  lemma {:induction false} ValuesAppend(ss: seq<Sample>, x: real, volume: real)
    ensures Values(ss + [Sample(x, volume)]) == Values(ss) + [x]
  {
    assert Front(ss + [Sample(x, volume)]) == ss;
  }

  class Filter {
    const kind: Kind
    const len: nat
    const stage: Stage
    ghost const repr: set<object>
    ghost var seen: seq<Input>

    ghost predicate Good(length: nat)
      reads this, repr
    {
      && kind == KindOf(stage) && length == Length(kind, length) && this !in Parts(stage)
      && repr == {this} + Parts(stage)
      && var fed := Fed(stage, length, Present(seen), Sums(seen)); fed
    }

    /** Stated for every `length` equal to `len`, so that its users need not look inside. */
    ghost predicate Valid()
      reads this, repr
    {
      && this in repr && len == Length(kind, len)
      && forall length: nat :: length == len ==> Good(length)
    }

    constructor (kind: Kind, len: nat)
      ensures Valid() && this.kind == kind && this.len == Length(kind, len) && seen == []
      ensures fresh(repr)
    {
      var s := NewStage(kind, len);
      this.kind := kind;
      this.len := Length(kind, len);
      this.stage := s;
      this.repr := {this} + Parts(s);
      this.seen := [];
    }

    method Update(x: Option<real>, volume: real) returns (r: Option<real>)
      requires Valid()
      modifies repr
      ensures Valid() && seen == old(seen) + [Input(x, volume)] && r == AdaptiveAt(kind, len, seen)
    {
      assert Good(len);
      PresentAppend(seen, Input(x, volume));
      seen := seen + [Input(x, volume)];
      if kind == OfKalman {
        r := UpdateKalman(stage, len, x, Present(old(seen)), Sums(old(seen)), Present(seen));
      } else if x.None? {
        FedSkips(stage, len, Present(old(seen)), Sums(old(seen)), Sums(seen));
        r := None;
      } else {
        r := UpdateStage(stage, len, x.value, volume, Present(old(seen)), Sums(old(seen)), Sums(seen));
      }
      assert Good(len);
    }
  }

  method NewStage(kind: Kind, len: nat) returns (s: Stage)
    ensures KindOf(s) == kind && fresh(Parts(s)) && var fed := Fed(s, Length(kind, len), [], []); fed
  {
    match kind {
      case NoFilter => s := Plain;
      case OfSma => var f := new Sma(len); s := SmaStage(f);
      case OfEma => var f := new Ema(len); s := EmaStage(f);
      case OfRma => var f := new Rma(len); s := RmaStage(f);
      case OfKalman => var f := new Kalman(len); s := KalmanStage(f);
      case _ => s := NewChain(kind, len);
    }
  }

  method NewChain(kind: Kind, len: nat) returns (s: Stage)
    requires kind.DoubleWma? || kind.TripleVwma? || kind.OfHma? || kind.OfLlama?
    ensures KindOf(s) == kind && fresh(Parts(s)) && var fed := Fed(s, Length(kind, len), [], []); fed
  {
    match kind {
      case DoubleWma => var f := new WmaChain(len); s := WmaStage(f);
      case TripleVwma => var f := new VwmaChain(len); s := VwmaStage(f);
      case OfHma => var f := new Hma(len); s := HmaStage(f);
      case OfLlama => var f := new Llama(len); s := LlamaStage(f);
    }
  }

  lemma FedSkips(s: Stage, len: nat, ss: seq<Sample>, sums: seq<Option<real>>, more: seq<Option<real>>)
    requires !s.KalmanStage? && len >= 1 && Fed(s, len, ss, sums)
    ensures Fed(s, len, ss, more)
  {
  }

  method UpdateKalman(
      s: Stage, len: nat, x: Option<real>, ghost ss: seq<Sample>, ghost sums: seq<Option<real>>,
      ghost more: seq<Sample>)
      returns (r: Option<real>)
    requires s.KalmanStage? && len >= 1 && Fed(s, len, ss, sums)
    modifies Parts(s)
    ensures Fed(s, len, more, sums + [x]) && r == KalmanAt(sums + [x], Share(len))
  {
    r := s.kalman.Update(x);
  }

  method UpdateStage(
      s: Stage, len: nat, x: real, volume: real, ghost ss: seq<Sample>, ghost sums: seq<Option<real>>,
      ghost more: seq<Option<real>>)
      returns (r: Option<real>)
    requires !s.KalmanStage? && len == Length(KindOf(s), len) && (var ok := Fed(s, len, ss, sums); ok)
    modifies Parts(s)
    ensures (var ok := Fed(s, len, ss + [Sample(x, volume)], more); ok)
    ensures r == OnValues(KindOf(s), len, ss + [Sample(x, volume)])
  {
    ghost var all := ss + [Sample(x, volume)];
    ValuesAppend(ss, x, volume);
    if s.Plain? {
      OnNone(len, all);
      r := Some(x);
    } else if s.VwmaStage? {
      OnTripleVwma(len, all);
      r := s.vwmas.Update(x, volume);
    } else if s.SmaStage? {
      OnSma(len, all);
      r := s.sma.Update(x);
    } else if s.EmaStage? {
      OnEma(len, all);
      r := s.ema.Update(x);
    } else {
      r := UpdateOther(s, len, x, volume, ss, sums, more);
    }
  }

  method UpdateOther(
      s: Stage, len: nat, x: real, volume: real, ghost ss: seq<Sample>, ghost sums: seq<Option<real>>,
      ghost more: seq<Option<real>>)
      returns (r: Option<real>)
    requires s.RmaStage? || s.WmaStage? || s.HmaStage? || s.LlamaStage?
    requires len == Length(KindOf(s), len) && (var ok := Fed(s, len, ss, sums); ok)
    modifies Parts(s)
    ensures (var ok := Fed(s, len, ss + [Sample(x, volume)], more); ok)
    ensures r == OnValues(KindOf(s), len, ss + [Sample(x, volume)])
  {
    ghost var all := ss + [Sample(x, volume)];
    ValuesAppend(ss, x, volume);
    match s {
      case RmaStage(f) =>
        OnRma(len, all);
        r := f.Update(x);
      case WmaStage(f) =>
        OnDoubleWma(len, all);
        r := f.Update(x);
      case HmaStage(f) =>
        OnHma(len, all);
        r := f.Update(x);
      case LlamaStage(f) =>
        OnLlama(len, all);
        r := f.Update(x);
    }
  }
}
