/** What the filters make of a straight line, of a constant, and of one more value. */
module LineLaws {
  import opened Common
  import opened Filters

  /** `xs` rises by `d` from value to value, from `c` on. */
  ghost predicate Line(xs: seq<real>, c: real, d: real) {
    forall i :: 0 <= i < |xs| ==> xs[i] == Point(c, d, i)
  }

  function Point(c: real, d: real, i: int): real {
    c + d * i as real
  }

  /** A line's value at `x` back by `1 / part` of the steps over `n` values. */
  function Back(x: real, d: real, n: nat, part: real): real
    requires part != 0.0
  {
    x - d * (n as real - 1.0) / part
  }

  /** `p` moved toward `x` by the part `a`. */
  function Moved(p: real, a: real, x: real): real {
    p + a * (x - p)
  }

  lemma {:induction false} LineSum(xs: seq<real>, c: real, d: real)
    requires Line(xs, c, d)
    ensures 2.0 * Sum(xs) == |xs| as real * (2.0 * c + d * (|xs| as real - 1.0))
  {
    if |xs| > 0 {
      var f, n := Front(xs), |xs| as real;
      assert forall i :: 0 <= i < |f| ==> f[i] == xs[i];
      LineSum(f, c, d);
      assert |f| as real == n - 1.0;
      assert Last(xs) == Point(c, d, |xs| - 1) == c + d * (n - 1.0);
      OneMoreSum(c, d, n);
    }
  }

  lemma OneMoreSum(c: real, d: real, n: real)
    ensures (n - 1.0) * (2.0 * c + d * (n - 2.0)) + 2.0 * (c + d * (n - 1.0)) == n * (2.0 * c + d * (n - 1.0))
  {
  }

  lemma {:induction false} LineWeightedSum(xs: seq<real>, c: real, d: real)
    requires Line(xs, c, d)
    ensures 6.0 * WeightedSum(xs)
            == |xs| as real * (|xs| as real + 1.0) * (3.0 * c + 2.0 * d * (|xs| as real - 1.0))
  {
    if |xs| > 0 {
      var f, n := Front(xs), |xs| as real;
      assert forall i :: 0 <= i < |f| ==> f[i] == xs[i];
      LineWeightedSum(f, c, d);
      assert |f| as real == n - 1.0;
      assert Last(xs) == Point(c, d, |xs| - 1) == c + d * (n - 1.0);
      OneMoreWeighted(c, d, n);
    }
  }

  lemma OneMoreWeighted(c: real, d: real, n: real)
    ensures (n - 1.0) * n * (3.0 * c + 2.0 * d * (n - 2.0)) + 6.0 * ((c + d * (n - 1.0)) * n)
            == n * (n + 1.0) * (3.0 * c + 2.0 * d * (n - 1.0))
  {
    var m := n - 1.0;
    calc {
      m * n * (3.0 * c + 2.0 * d * (n - 2.0)) + 6.0 * ((c + d * m) * n);
      n * (m * (3.0 * c + 2.0 * d * (n - 2.0)) + 6.0 * (c + d * m));
      n * (3.0 * c * m + 2.0 * d * m * (n - 2.0) + 6.0 * c + 6.0 * d * m);
      n * (3.0 * c * (m + 2.0) + 2.0 * d * m * (n - 2.0 + 3.0));
      n * (n + 1.0) * (3.0 * c + 2.0 * d * m);
    }
  }

  lemma Halve(s: real, n: real, c: real, d: real)
    requires n > 0.0 && 2.0 * s == n * (2.0 * c + d * (n - 1.0))
    ensures s / n == (c + d * (n - 1.0)) - d * (n - 1.0) / 2.0
  {
    assert s == n * (c + d * (n - 1.0) / 2.0);
    assert s / n == c + d * (n - 1.0) / 2.0;
  }

  /** The mean of a line lags its last value by half its length. */
  lemma LineMean(xs: seq<real>, c: real, d: real)
    requires |xs| > 0 && Line(xs, c, d)
    ensures Mean(xs) == Back(Last(xs), d, |xs|, 2.0)
  {
    LineSum(xs, c, d);
    Halve(Sum(xs), |xs| as real, c, d);
    assert Last(xs) == Point(c, d, |xs| - 1) == c + d * (|xs| as real - 1.0);
  }

  lemma Third(s: real, n: real, c: real, d: real)
    requires n > 0.0 && 6.0 * s == n * (n + 1.0) * (3.0 * c + 2.0 * d * (n - 1.0))
    ensures s / (n * (n + 1.0) / 2.0) == (c + d * (n - 1.0)) - d * (n - 1.0) / 3.0
  {
    var w, r := n * (n + 1.0) / 2.0, c + d * (n - 1.0) * 2.0 / 3.0;
    assert w > 0.0;
    assert s == w * r by {
      assert 3.0 * c + 2.0 * d * (n - 1.0) == 3.0 * r;
      assert n * (n + 1.0) == 2.0 * w;
      assert 6.0 * s == (2.0 * w) * (3.0 * r);
    }
    DivBack(w, r);
  }

  lemma DivBack(w: real, r: real)
    requires w != 0.0
    ensures (w * r) / w == r
  {
  }

  /** `s` is the weighted sum of a line's first `n` values. */
  predicate Weighs(s: real, n: real, c: real, d: real) {
    var ok := 6.0 * s == n * (n + 1.0) * (3.0 * c + 2.0 * d * (n - 1.0));
    ok
  }

  /** `m` is the weighted mean of `n` values whose weighted sum is `s`. */
  predicate Averages(m: real, s: real, n: real) {
    var ok := n > 0.0 && m == s / (n * (n + 1.0) / 2.0);
    ok
  }

  predicate EndsAt(last: real, n: real, c: real, d: real) {
    var ok := last == c + d * (n - 1.0);
    ok
  }

  lemma ThirdBack(s: real, len: nat, n: real, c: real, d: real, last: real, m: real)
    requires n == len as real && Weighs(s, n, c, d) && EndsAt(last, n, c, d) && Averages(m, s, n)
    ensures m == Back(last, d, len, 3.0)
  {
    Third(s, n, c, d);
  }

  lemma {:induction false} LineParts(xs: seq<real>, c: real, d: real, n: real)
    requires |xs| > 0 && Line(xs, c, d) && n == |xs| as real
    ensures Weighs(WeightedSum(xs), n, c, d) && EndsAt(Last(xs), n, c, d)
  {
    LineWeightedSum(xs, c, d);
    assert Last(xs) == Point(c, d, |xs| - 1);
  }

  lemma {:induction false} MeanAverages(xs: seq<real>, n: real)
    requires |xs| > 0 && n == |xs| as real
    ensures Averages(WeightedMean(xs), WeightedSum(xs), n)
  {
  }

  /** The linearly weighted mean of a line lags its last value by a third of its length. */
  lemma LineWeightedMean(xs: seq<real>, c: real, d: real)
    requires |xs| > 0 && Line(xs, c, d)
    ensures WeightedMean(xs) == Back(Last(xs), d, |xs|, 3.0)
  {
    LineParts(xs, c, d, |xs| as real);
    MeanAverages(xs, |xs| as real);
    ThirdBack(WeightedSum(xs), |xs|, |xs| as real, c, d, Last(xs), WeightedMean(xs));
  }

  // ------------------------------------------------------------- filters of a line

  lemma LineNewest(xs: seq<real>, c: real, d: real, n: nat)
    requires Line(xs, c, d) && 0 < n <= |xs|
    ensures Line(Newest(xs, n), Point(c, d, |xs| - n), d) && Last(Newest(xs, n)) == Last(xs)
  {
    var ys := Newest(xs, n);
    forall i | 0 <= i < n
      ensures ys[i] == Point(Point(c, d, |xs| - n), d, i)
    {
      assert ys[i] == xs[|xs| - n + i];
      Shift(c, d, |xs| - n, i);
    }
  }

  lemma Shift(c: real, d: real, i: int, j: int)
    ensures Point(Point(c, d, i), d, j) == Point(c, d, i + j)
  {
    assert d * i as real + d * j as real == d * (i + j) as real;
  }

  /** On a line the simple mean lags by half its length, and the weighted mean by a third. */
  lemma MeansLag(xs: seq<real>, c: real, d: real, len: nat)
    requires Line(xs, c, d) && 0 < len <= |xs|
    ensures SmaAt(xs, len) == Some(Back(Last(xs), d, len, 2.0))
    ensures WmaAt(xs, len) == Some(Back(Last(xs), d, len, 3.0))
  {
    LineNewest(xs, c, d, len);
    NewestMeanIs(xs, len);
    NewestWeightedIs(xs, len);
    LineMean(Newest(xs, len), Point(c, d, |xs| - len), d);
    LineWeightedMean(Newest(xs, len), Point(c, d, |xs| - len), d);
  }

  lemma Rise(c: real, d: real, i: int, n: nat)
    ensures Point(c, d, i + n) - Point(c, d, i) == d * n as real
  {
    assert d * (i + n) as real - d * i as real == d * n as real;
  }

  lemma AheadOfLine(last: real, d: real, len: real)
    requires len > 0.0
    ensures (last - d * (len - 1.0) / 2.0) + (d * len) / len * (len / 2.0) == last + d / 2.0
  {
    assert (d * len) / len == d;
  }

  /** On a line the mean with its slope leads by half a bar. */
  lemma LlamaLeads(xs: seq<real>, c: real, d: real, len: nat)
    requires Line(xs, c, d) && 0 < len < |xs|
    ensures LlamaAt(xs, len) == Some(Last(xs) + d / 2.0)
  {
    MeansLag(xs, c, d, len);
    ExtendedIs(xs, len);
    var past := xs[|xs| - 1 - len];
    assert Last(xs) == Point(c, d, |xs| - 1) && past == Point(c, d, |xs| - 1 - len);
    Rise(c, d, |xs| - 1 - len, len);
    AheadOfLine(Last(xs), d, len as real);
  }

  /** What the Hull average adds back: twice the half-length lag less the full one. */
  function HullLead(len: nat, d: real): real {
    d * (len as real - 1.0) / 3.0 - 2.0 * (d * ((len / 2) as real - 1.0) / 3.0)
  }

  lemma {:induction false} HullInputsOfLine(xs: seq<real>, c: real, d: real, len: nat, start: real)
    requires Line(xs, c, d) && len >= 2 && start == Point(c, d, len - 1) + HullLead(len, d)
    ensures |HullInputs(xs, len)| == if |xs| < len then 0 else |xs| - len + 1
    ensures Line(HullInputs(xs, len), start, d)
  {
    if |xs| > 0 {
      var f := Front(xs);
      assert forall i :: 0 <= i < |f| ==> f[i] == xs[i];
      HullInputsOfLine(f, c, d, len, start);
      if |xs| >= len {
        var y := HullInputOfLine(xs, c, d, len, start);
        assert HullInputs(xs, len) == HullInputs(f, len) + [y];
        LineMore(HullInputs(f, len), y, start, d);
      }
    }
  }

  lemma {:induction false} HullInputOfLine(
      xs: seq<real>, c: real, d: real, len: nat, start: real) returns (y: real)
    requires Line(xs, c, d) && 2 <= len <= |xs| && start == Point(c, d, len - 1) + HullLead(len, d)
    ensures WmaAt(xs, len / 2).Some? && WmaAt(xs, len).Some?
    ensures y == TwiceLess(WmaAt(xs, len / 2).value, WmaAt(xs, len).value)
    ensures y == Point(start, d, |xs| - len)
  {
    MeansLag(xs, c, d, len);
    MeansLag(xs, c, d, len / 2);
    y := TwiceLess(WmaAt(xs, len / 2).value, WmaAt(xs, len).value);
    assert y == Last(xs) + HullLead(len, d);
    assert Last(xs) == Point(c, d, |xs| - 1);
    Shift(c, d, len - 1, |xs| - len);
    Offset(Point(c, d, len - 1), HullLead(len, d), d, |xs| - len);
  }

  lemma Offset(c: real, x: real, d: real, i: int)
    ensures Point(c + x, d, i) == Point(c, d, i) + x
  {
  }

  lemma LineMore(xs: seq<real>, y: real, c: real, d: real)
    requires Line(xs, c, d) && y == Point(c, d, |xs|)
    ensures Line(xs + [y], c, d)
  {
  }

  /** On a line the Hull average is off by its three lags: the full one added back, twice the half one and that of the
      last stage taken off. */
  lemma HullOnLine(xs: seq<real>, c: real, d: real, len: nat)
    requires Line(xs, c, d) && 2 <= len && len + RoundSqrt(len) - 1 <= |xs|
    ensures HmaAt(xs, len)
            == Some(Back(Last(xs) + HullLead(len, d), d, RoundSqrt(len), 3.0))
  {
    var hs, c2 := HullInputs(xs, len), Point(c, d, len - 1) + HullLead(len, d);
    HullInputsOfLine(xs, c, d, len, c2);
    MeansLag(hs, c2, d, RoundSqrt(len));
    assert Last(hs) == Point(c2, d, |xs| - len);
    Offset(Point(c, d, len - 1), HullLead(len, d), d, |xs| - len);
    Shift(c, d, len - 1, |xs| - len);
    assert Last(xs) == Point(c, d, |xs| - 1);
    assert Last(hs) == Last(xs) + HullLead(len, d);
  }

  // ---------------------------------------------------------------- one more value

  lemma {:induction false} TailSum(ys: seq<real>)
    requires |ys| > 0
    ensures Sum(ys[1..]) == Sum(ys) - ys[0] && WeightedSum(ys[1..]) == WeightedSum(ys) - Sum(ys)
  {
    if |ys| > 1 {
      TailSum(Front(ys));
      assert Front(ys[1..]) == Front(ys)[1..] && Last(ys[1..]) == Last(ys);
      assert Times(Last(ys), |ys| as real) == Times(Last(ys), |ys| as real - 1.0) + Last(ys);
    } else {
      assert Front(ys) == [];
    }
  }

  lemma {:induction false} SlideSums(xs: seq<real>, x: real, len: nat)
    requires 0 < len <= |xs|
    ensures var ys, zs := Newest(xs, len), Newest(xs + [x], len);
            && Sum(zs) == Sum(ys) - ys[0] + x
            && WeightedSum(zs) == WeightedSum(ys) - Sum(ys) + Times(x, len as real)
  {
    var ys, zs := Newest(xs, len), Newest(xs + [x], len);
    assert zs == ys[1..] + [x];
    assert Front(zs) == ys[1..];
    TailSum(ys);
  }

  lemma Parts(x: real, n: real, q: real)
    requires n != 0.0 && q == x / n
    ensures n * q == x
  {
  }

  /** `x` is `n` times `q`. */
  predicate Scales(n: real, q: real, x: real) {
    var ok := n * q == x;
    ok
  }

  lemma MeanTimes(xs: seq<real>, len: nat, n: real)
    requires 0 < len <= |xs| && n == len as real
    ensures SmaAt(xs, len).Some? && Scales(n, SmaAt(xs, len).value, Sum(Newest(xs, len)))
  {
    NewestMeanIs(xs, len);
    Parts(Sum(Newest(xs, len)), n, SmaAt(xs, len).value);
  }

  lemma WeightedTimes(xs: seq<real>, len: nat, w: real)
    requires 0 < len <= |xs| && w == len as real * (len as real + 1.0) / 2.0
    ensures WmaAt(xs, len).Some? && Scales(w, WmaAt(xs, len).value, WeightedSum(Newest(xs, len)))
  {
    NewestWeightedIs(xs, len);
    assert w > 0.0;
    Parts(WeightedSum(Newest(xs, len)), w, WmaAt(xs, len).value);
  }

  /** A sum that `x` joins and `gone` leaves. */
  predicate Slides(was: real, now: real, x: real, gone: real) {
    var ok := now == was - gone + x;
    ok
  }

  /** A weighted sum whose parts all lose one weight, `sum` in all, and that `x` joins with weight `n`. */
  predicate WeightedSlides(was: real, now: real, sum: real, x: real, n: real) {
    var ok := now == was - sum + x * n;
    ok
  }

  lemma {:induction false} SumsSlide(xs: seq<real>, x: real, more: seq<real>, len: nat, n: real)
    requires 0 < len <= |xs| && more == xs + [x] && n == len as real
    ensures Slides(Sum(Newest(xs, len)), Sum(Newest(more, len)), x, xs[|xs| - len])
    ensures WeightedSlides(
              WeightedSum(Newest(xs, len)), WeightedSum(Newest(more, len)), Sum(Newest(xs, len)), x, n)
  {
    SlideSums(xs, x, len);
    assert Newest(xs, len)[0] == xs[|xs| - len];
  }

  /** The mean `m` of `n` values becomes `k` when `x` takes the place of `gone`. */
  predicate Replaces(n: real, m: real, k: real, x: real, gone: real) {
    var ok := n * (k - m) == x - gone;
    ok
  }

  /** `w` becomes `v`: two parts in n + 1 of the distance from `m` to `x`. */
  predicate MovesTwice(n: real, w: real, v: real, m: real, x: real) {
    var ok := (n + 1.0) * (v - w) == 2.0 * (x - m);
    ok
  }

  lemma MeanReplaces(n: real, m: real, k: real, x: real, gone: real, was: real, now: real)
    requires Scales(n, m, was) && Scales(n, k, now) && Slides(was, now, x, gone)
    ensures Replaces(n, m, k, x, gone)
  {
  }

  lemma WeightedTwice(n: real, t: real, w: real, v: real, m: real, x: real, was: real, now: real, sum: real)
    requires n > 0.0 && t == n * (n + 1.0) / 2.0
    requires Scales(t, w, was) && Scales(t, v, now) && Scales(n, m, sum) && WeightedSlides(was, now, sum, x, n)
    ensures MovesTwice(n, w, v, m, x)
  {
    assert n * ((n + 1.0) * (v - w)) == 2.0 * (t * v - t * w);
    assert n * (2.0 * (x - m)) == 2.0 * (x * n - n * m);
    Unscale((n + 1.0) * (v - w), 2.0 * (x - m), n);
  }

  lemma Unscale(a: real, b: real, n: real)
    requires n != 0.0 && n * a == n * b
    ensures a == b
  {
  }

  lemma {:induction false} MeansMoveTo(xs: seq<real>, x: real, more: seq<real>, len: nat, n: real, t: real)
    requires 0 < len <= |xs| && more == xs + [x] && n == len as real && t == n * (n + 1.0) / 2.0
    ensures SmaAt(xs, len).Some? && SmaAt(more, len).Some? && WmaAt(xs, len).Some? && WmaAt(more, len).Some?
    ensures Replaces(n, SmaAt(xs, len).value, SmaAt(more, len).value, x, xs[|xs| - len])
    ensures MovesTwice(n, WmaAt(xs, len).value, WmaAt(more, len).value, SmaAt(xs, len).value, x)
  {
    SumsSlide(xs, x, more, len, n);
    MeanTimes(xs, len, n);
    MeanTimes(more, len, n);
    WeightedTimes(xs, len, t);
    WeightedTimes(more, len, t);
    MeanReplaces(n, SmaAt(xs, len).value, SmaAt(more, len).value, x, xs[|xs| - len], Sum(Newest(xs, len)),
                 Sum(Newest(more, len)));
    WeightedTwice(n, t, WmaAt(xs, len).value, WmaAt(more, len).value, SmaAt(xs, len).value, x,
                  WeightedSum(Newest(xs, len)), WeightedSum(Newest(more, len)), Sum(Newest(xs, len)));
  }

  /** One more value takes the place of the oldest in the simple mean, and moves the weighted mean by two parts in
      len + 1 of its distance from the simple one. */
  lemma MeansMove(xs: seq<real>, x: real, len: nat)
    requires 0 < len <= |xs|
    ensures SmaAt(xs, len).Some? && SmaAt(xs + [x], len).Some? && WmaAt(xs, len).Some? && WmaAt(xs + [x], len).Some?
    ensures Replaces(len as real, SmaAt(xs, len).value, SmaAt(xs + [x], len).value, x, xs[|xs| - len])
    ensures MovesTwice(
              len as real, WmaAt(xs, len).value, WmaAt(xs + [x], len).value, SmaAt(xs, len).value, x)
  {
    MeansMoveTo(xs, x, xs + [x], len, len as real, len as real * (len as real + 1.0) / 2.0);
  }

  ghost predicate Even(ss: seq<Sample>, v: real) {
    forall i :: 0 <= i < |ss| ==> ss[i].volume == v
  }

  function Xs(ss: seq<Sample>): (r: seq<real>)
    ensures |r| == |ss|
  {
    if |ss| == 0 then [] else Xs(Front(ss)) + [Last(ss).x]
  }

  lemma {:induction false} EvenLists(ss: seq<Sample>, v: real)
    requires Even(ss, v)
    ensures |Products(ss)| == |Volumes(ss)| == |ss|
    ensures forall i :: 0 <= i < |ss| ==> Products(ss)[i] == Times(Xs(ss)[i], v) && Volumes(ss)[i] == v
  {
    if |ss| > 0 {
      var f := Front(ss);
      assert forall i :: 0 <= i < |f| ==> f[i] == ss[i];
      EvenLists(f, v);
      assert Last(ss).volume == v;
    }
  }

  lemma {:induction false} ScaledSum(ps: seq<real>, vs: seq<real>, xs: seq<real>, v: real)
    requires |ps| == |vs| == |xs| && forall i :: 0 <= i < |xs| ==> ps[i] == Times(xs[i], v) && vs[i] == v
    ensures Sum(ps) == Sum(xs) * v && Sum(vs) == |xs| as real * v
  {
    if |xs| > 0 {
      ScaledSum(Front(ps), Front(vs), Front(xs), v);
      assert Sum(Front(xs)) * v + Last(xs) * v == Sum(xs) * v;
      assert (|xs| as real - 1.0) * v + v == |xs| as real * v;
    }
  }

  lemma MeanOf(xs: seq<real>, len: nat, n: real, m: real)
    requires 0 < len <= |xs| && n == len as real && Scales(n, m, Sum(Newest(xs, len)))
    ensures SmaAt(xs, len) == Some(m)
  {
    MeanTimes(xs, len, n);
    Unscale(SmaAt(xs, len).value, m, n);
  }

  lemma Swap(n: real, m: real, v: real, s: real)
    requires n * m == s
    ensures n * (m * v) == s * v
  {
  }

  lemma {:induction false} EvenMeans(
      ps: seq<real>, vs: seq<real>, xs: seq<real>, v: real, len: nat, n: real, m: real)
    requires |ps| == |vs| == |xs| && forall i :: 0 <= i < |xs| ==> ps[i] == Times(xs[i], v) && vs[i] == v
    requires 0 < len <= |xs| && n == len as real && SmaAt(xs, len) == Some(m)
    ensures SmaAt(ps, len) == Some(m * v) && SmaAt(vs, len) == Some(v)
  {
    MeanTimes(xs, len, n);
    ScaledSum(Newest(ps, len), Newest(vs, len), Newest(xs, len), v);
    Swap(n, m, v, Sum(Newest(xs, len)));
    MeanOf(ps, len, n, m * v);
    MeanOf(vs, len, n, v);
  }

  lemma RatioOfMeans(a: Option<real>, b: Option<real>, m: real, v: real)
    requires a == Some(m * v) && b == Some(v)
    ensures Ratio(a, b) == if v == 0.0 then None else Some(m)
  {
    if v != 0.0 {
      DivBack(v, m);
      assert m * v == v * m;
    }
  }

  /** At even volume the volume-weighted mean is the simple one; without volume there is none. */
  lemma {:induction false} EvenVolumeIsSimple(ss: seq<Sample>, v: real, len: nat)
    requires Even(ss, v) && 0 < len <= |ss|
    ensures VwmaAt(ss, len) == if v == 0.0 then None else SmaAt(Xs(ss), len)
  {
    var ps, vs, xs := Products(ss), Volumes(ss), Xs(ss);
    EvenLists(ss, v);
    var m := SmaAt(xs, len).value;
    EvenMeans(ps, vs, xs, v, len, len as real, m);
    RatioOfMeans(SmaAt(ps, len), SmaAt(vs, len), m, v);
  }

  lemma MixMoves(a: real, x: real, p: real)
    ensures Mix(a, x, p) == Moved(p, a, x)
  {
    assert Times(a, x) + Times(1.0 - a, p) == p + a * (x - p);
  }

  /** One more value moves the exponential mean by two parts in len + 1 toward it; the first value starts it. */
  lemma EmaMoves(xs: seq<real>, x: real, len: nat)
    requires len >= 1
    ensures EmaAt([x], len) == Some(x)
    ensures |xs| > 0 ==>
              var p := EmaAt(xs, len).value; EmaAt(xs + [x], len) == Some(Moved(p, 2.0 / (len as real + 1.0), x))
  {
    SmoothedSeed([x], EmaAlpha(len));
    MeanOfOne(x);
    if |xs| > 0 {
      SmoothedStep(xs, x, 1, EmaAlpha(len));
      MixMoves(EmaAlpha(len), x, EmaAt(xs, len).value);
    }
  }

  /** One more value moves Wilder's mean by one part in len toward it; the mean of the first len values starts it. */
  lemma RmaMoves(xs: seq<real>, x: real, len: nat)
    requires len >= 1
    ensures |xs| <= len ==> RmaAt(xs, len) == SmaAt(xs, len)
    ensures |xs| >= len ==>
              var p := RmaAt(xs, len).value; RmaAt(xs + [x], len) == Some(Moved(p, 1.0 / len as real, x))
  {
    if |xs| <= len {
      RmaSeed(xs, len);
    }
    if |xs| >= len {
      SmoothedStep(xs, x, len, Share(len));
      MixMoves(Share(len), x, RmaAt(xs, len).value);
    }
  }

  lemma GainNext(n: nat, q: real)
    requires q > 0.0
    ensures Gain(n, q) + q > 0.0 && Gain(n + 1, q) == (Gain(n, q) + q) / (Gain(n, q) + q + 1.0)
  {
  }

  lemma {:induction false} KalmanMore(xs: seq<Option<real>>, x: Option<real>, q: real)
    requires q > 0.0
    ensures KalmanAt(xs + [x], q)
            == if x.None? then None
               else if KalmanAt(xs, q).None? then x
               else Some(Mix(Gain(|xs| + 1, q), x.value, KalmanAt(xs, q).value))
  {
    assert Front(xs + [x]) == xs;
  }

  /** One more value moves the Kalman estimate toward it by the gain, which follows from the gain before it; a value
      after none starts anew, and a bar without a value forgets the estimate. */
  lemma {:induction false} KalmanMoves(xs: seq<Option<real>>, x: real, q: real)
    requires q > 0.0
    ensures Gain(0, q) == 1.0 && Gain(|xs|, q) + q > 0.0
    ensures KalmanAt(xs + [None], q).None?
    ensures KalmanAt(xs, q).None? ==> KalmanAt(xs + [Some(x)], q) == Some(x)
    ensures KalmanAt(xs, q).Some? ==>
              var p, g := KalmanAt(xs, q).value, Gain(|xs|, q) + q;
              KalmanAt(xs + [Some(x)], q) == Some(Moved(p, g / (g + 1.0), x))
  {
    KalmanMore(xs, None, q);
    KalmanMore(xs, Some(x), q);
    GainNext(|xs|, q);
    if KalmanAt(xs, q).Some? {
      MixMoves(Gain(|xs| + 1, q), x, KalmanAt(xs, q).value);
    }
  }
}
