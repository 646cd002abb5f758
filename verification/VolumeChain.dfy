/** When a chain of volume-weighted means has values: it depends on the volumes alone. */
module VolumeChain {
  import opened Common
  import opened Filters
  import opened Adaptive

  ghost predicate NonNegative(ss: seq<Sample>) {
    forall i :: 0 <= i < |ss| ==> ss[i].volume >= 0.0
  }

  /** The `len` samples before `k` are all without volume. */
  ghost predicate DryAt(ss: seq<Sample>, k: int, len: nat) {
    len <= k <= |ss| && forall i :: k - len <= i < k ==> ss[i].volume == 0.0
  }

  ghost predicate Wet(ss: seq<Sample>, len: nat) {
    forall k :: !DryAt(ss, k, len)
  }

  /** How many of `n` bars are at or after bar `first`. */
  function From(n: nat, first: nat): nat
    requires first >= 1
  {
    if n < first then 0 else n - first + 1
  }

  // ------------------------------------------------------------------ one mean

  ghost predicate AllZero(xs: seq<real>) {
    forall i :: 0 <= i < |xs| ==> xs[i] == 0.0
  }

  ghost predicate NoneBelow(xs: seq<real>) {
    forall i :: 0 <= i < |xs| ==> xs[i] >= 0.0
  }

  lemma {:induction false} SumZero(xs: seq<real>)
    requires NoneBelow(xs)
    ensures Sum(xs) >= 0.0 && (Sum(xs) == 0.0 <==> AllZero(xs))
  {
    if |xs| > 0 {
      var f := Front(xs);
      assert NoneBelow(f) by {
        assert forall i :: 0 <= i < |f| ==> f[i] == xs[i];
      }
      SumZero(f);
      ZeroFront(xs);
    }
  }

  lemma ZeroFront(xs: seq<real>)
    requires |xs| > 0
    ensures AllZero(xs) <==> AllZero(Front(xs)) && Last(xs) == 0.0
  {
    var f := Front(xs);
    if AllZero(f) && Last(xs) == 0.0 {
      forall i | 0 <= i < |xs| ensures xs[i] == 0.0 {
        assert i < |f| ==> xs[i] == f[i];
      }
    }
  }

  lemma MeanZero(xs: seq<real>)
    requires |xs| > 0 && NoneBelow(xs)
    ensures Mean(xs) == 0.0 <==> AllZero(xs)
  {
    SumZero(xs);
    QuotientZero(Sum(xs), |xs| as real);
  }

  lemma QuotientZero(x: real, y: real)
    requires y > 0.0
    ensures x / y == 0.0 <==> x == 0.0
  {
  }

  lemma {:induction false} VolumesAre(ss: seq<Sample>)
    ensures |Volumes(ss)| == |ss| == |Products(ss)|
    ensures forall i :: 0 <= i < |ss| ==> Volumes(ss)[i] == ss[i].volume
  {
    if |ss| > 0 {
      VolumesAre(Front(ss));
    }
  }

  lemma NewestVolumes(vs: seq<real>, ss: seq<Sample>, len: nat)
    requires 1 <= len <= |ss| == |vs| && NonNegative(ss) && forall i :: 0 <= i < |ss| ==> vs[i] == ss[i].volume
    ensures var last := Newest(vs, len); NoneBelow(last) && (AllZero(last) <==> DryAt(ss, |ss|, len))
  {
    var last, k := Newest(vs, len), |ss| - len;
    assert forall i :: 0 <= i < len ==> last[i] == vs[k + i];
    if AllZero(last) {
      forall i | k <= i < |ss| ensures ss[i].volume == 0.0 {
        assert last[i - k] == 0.0;
      }
    }
  }

  lemma RatioExists(a: Option<real>, b: real)
    requires a.Some?
    ensures Ratio(a, Some(b)).Some? <==> b != 0.0
  {
  }

  /** A volume-weighted mean exists exactly when its window is full and not all without volume. */
  lemma VwmaExists(ss: seq<Sample>, len: nat)
    requires len >= 1 && NonNegative(ss)
    ensures VwmaAt(ss, len).Some? <==> |ss| >= len && !DryAt(ss, |ss|, len)
  {
    VolumesAre(ss);
    if |ss| >= len {
      NewestVolumes(Volumes(ss), ss, len);
      MeanZero(Newest(Volumes(ss), len));
      NewestMeanIs(Volumes(ss), len);
      RatioExists(SmaAt(Products(ss), len), NewestMean(Volumes(ss), len));
    }
  }

  // --------------------------------------------------------------- how many values

  lemma FrontNonNegative(ss: seq<Sample>)
    requires NonNegative(ss) && |ss| > 0
    ensures NonNegative(Front(ss)) && Last(ss).volume >= 0.0
  {
  }

  lemma OneOut(outs: seq<Sample>, x: Option<real>, volume: real)
    requires NonNegative(outs) && volume >= 0.0
    ensures NonNegative(outs + WithVolume(x, volume))
    ensures |outs + WithVolume(x, volume)| == |outs| + if x.Some? then 1 else 0
  {
  }

  /** Never more values than bars from the first full window on. */
  lemma {:induction false} OutsAtMost(ss: seq<Sample>, len: nat)
    requires len >= 1 && NonNegative(ss)
    ensures |VwmaOuts(ss, len)| <= From(|ss|, len) && NonNegative(VwmaOuts(ss, len))
  {
    if |ss| > 0 {
      FrontNonNegative(ss);
      OutsAtMost(Front(ss), len);
      VwmaExists(ss, len);
      OneOut(VwmaOuts(Front(ss), len), VwmaAt(ss, len), Last(ss).volume);
    }
  }

  /** Each dry window costs a value. */
  lemma {:induction false} OutsShort(ss: seq<Sample>, len: nat, k: int)
    requires len >= 1 && NonNegative(ss) && DryAt(ss, k, len)
    ensures |VwmaOuts(ss, len)| < From(|ss|, len)
  {
    FrontNonNegative(ss);
    VwmaExists(ss, len);
    OutsAtMost(Front(ss), len);
    OneOut(VwmaOuts(Front(ss), len), VwmaAt(ss, len), Last(ss).volume);
    if k < |ss| {
      DryFront(ss, k, len);
      OutsShort(Front(ss), len, k);
    }
  }

  lemma DryFront(ss: seq<Sample>, k: int, len: nat)
    requires |ss| > 0 && k < |ss|
    ensures DryAt(Front(ss), k, len) <==> DryAt(ss, k, len)
  {
    if DryAt(Front(ss), k, len) {
      forall i | k - len <= i < k ensures ss[i].volume == 0.0 {
        assert Front(ss)[i] == ss[i];
      }
    }
  }

  lemma WetFront(ss: seq<Sample>, len: nat)
    requires |ss| > 0 && Wet(ss, len)
    ensures Wet(Front(ss), len)
  {
    forall k ensures !DryAt(Front(ss), k, len) {
      if k < |ss| {
        DryFront(ss, k, len);
      }
    }
  }

  /** Sample `i` of the outputs carries the volume of the bar that completed its window. */
  ghost predicate Shifted(outs: seq<Sample>, ss: seq<Sample>, len: nat)
    requires len >= 1
  {
    |outs| == From(|ss|, len) && forall i :: 0 <= i < |outs| ==> outs[i].volume == ss[i + len - 1].volume
  }

  lemma ShiftedMore(outs: seq<Sample>, ss: seq<Sample>, len: nat, x: Option<real>)
    requires len >= 1 && |ss| > 0 && Shifted(outs, Front(ss), len) && (x.Some? <==> |ss| >= len)
    ensures Shifted(outs + WithVolume(x, Last(ss).volume), ss, len)
  {
    var r := outs + WithVolume(x, Last(ss).volume);
    forall i | 0 <= i < |r| ensures r[i].volume == ss[i + len - 1].volume {
      if i < |outs| {
        assert r[i] == outs[i] && Front(ss)[i + len - 1] == ss[i + len - 1];
      }
    }
  }

  lemma {:induction false} WetOuts(ss: seq<Sample>, len: nat)
    requires len >= 1 && NonNegative(ss) && Wet(ss, len)
    ensures Shifted(VwmaOuts(ss, len), ss, len)
  {
    if |ss| > 0 {
      FrontNonNegative(ss);
      WetFront(ss, len);
      WetOuts(Front(ss), len);
      VwmaExists(ss, len);
      assert !DryAt(ss, |ss|, len);
      ShiftedMore(VwmaOuts(Front(ss), len), ss, len, VwmaAt(ss, len));
    }
  }

  lemma DryShift(outs: seq<Sample>, ss: seq<Sample>, len: nat, k: int)
    requires len >= 1 && Shifted(outs, ss, len) && DryAt(outs, k, len)
    ensures DryAt(ss, k - 1 + len, len)
  {
    forall i | k - 1 <= i < k - 1 + len ensures ss[i].volume == 0.0 {
      assert outs[i - len + 1].volume == ss[i].volume;
    }
  }

  /** The outputs of a wet sequence are wet. */
  lemma WetStays(outs: seq<Sample>, ss: seq<Sample>, len: nat)
    requires len >= 1 && Shifted(outs, ss, len) && Wet(ss, len)
    ensures Wet(outs, len)
  {
    forall k ensures !DryAt(outs, k, len) {
      if DryAt(outs, k, len) {
        DryShift(outs, ss, len, k);
      }
    }
  }

  // ------------------------------------------------------------------ three in a row

  /** No value before `3 * len - 2` samples. */
  lemma TripleNotBefore(ss: seq<Sample>, len: nat)
    requires len >= 1 && NonNegative(ss)
    ensures TripleVwmaAt(ss, len).Some? ==> |ss| >= 3 * len - 2
  {
    OutsAtMost(ss, len);
    OutsAtMost(VwmaOuts(ss, len), len);
    VwmaExists(VwmaOuts(VwmaOuts(ss, len), len), len);
  }

  /** Without a dry window: from `3 * len - 2` samples on. */
  lemma TripleWhenWet(ss: seq<Sample>, len: nat)
    requires len >= 1 && NonNegative(ss) && Wet(ss, len)
    ensures TripleVwmaAt(ss, len).Some? <==> |ss| >= 3 * len - 2
  {
    var s1 := VwmaOuts(ss, len);
    var s2 := VwmaOuts(s1, len);
    OutsAtMost(ss, len);
    OutsAtMost(s1, len);
    WetOuts(ss, len);
    WetStays(s1, ss, len);
    WetOuts(s1, len);
    WetStays(s2, s1, len);
    VwmaExists(ss, len);
    VwmaExists(s1, len);
    VwmaExists(s2, len);
    assert !DryAt(ss, |ss|, len) && !DryAt(s1, |s1|, len) && !DryAt(s2, |s2|, len);
  }

  /** A dry window at the end: no value. */
  lemma TripleDryEnd(ss: seq<Sample>, len: nat)
    requires len >= 1 && NonNegative(ss) && DryAt(ss, |ss|, len)
    ensures TripleVwmaAt(ss, len).None?
  {
    VwmaExists(ss, len);
  }

  /** A dry window before the first value delays it. */
  lemma TripleDryEarly(ss: seq<Sample>, len: nat, k: int)
    requires len >= 1 && NonNegative(ss) && DryAt(ss, k, len) && |ss| == 3 * len - 2
    ensures TripleVwmaAt(ss, len).None?
  {
    OutsShort(ss, len, k);
    OutsAtMost(ss, len);
    OutsAtMost(VwmaOuts(ss, len), len);
    VwmaExists(VwmaOuts(VwmaOuts(ss, len), len), len);
  }
}
