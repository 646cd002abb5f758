/** Datatypes and arithmetic shared by the models of the WVAD trading node.

    Two forms recur in every module's contracts. `var ok := P; ok` is `P`: named, the verifier proves it as
    one fact instead of one obligation for each of its conjuncts. A ghost function defined as the one value
    with a property, with a lemma `…Is` that gives its formula, keeps that formula out of the proofs that do
    not need it. */
module Common {
  datatype Option<+T> = None | Some(value: T) {
    function GetOr(default: T): T {
      if Some? then value else default
    }
  }

  datatype Result<+T, +E> = Ok(value: T) | Err(error: E)

  function Abs(x: int): nat {
    if x < 0 then -x else x
  }

  function Sign(x: int): int {
    if x < 0 then -1 else if x > 0 then 1 else 0
  }

  function Max(x: int, y: int): int {
    if x < y then y else x
  }

  function RMax(x: real, y: real): real {
    if x < y then y else x
  }

  function RMin(x: real, y: real): real {
    if y < x then y else x
  }

  function Last<T>(s: seq<T>): T
    requires |s| > 0
  {
    s[|s| - 1]
  }

  function Front<T>(s: seq<T>): seq<T>
    requires |s| > 0
  {
    s[..|s| - 1]
  }

  function OptSeq<T>(o: Option<T>): seq<T> {
    match o
    case None => []
    case Some(x) => [x]
  }

  /** The multiple of `step` at or below `ts`, also for times before the epoch. */
  function Floored(ts: int, step: int): int
    requires step > 0
  {
    ts / step * step
  }

  ghost predicate IsBucket(ts: int, step: int, b: int) {
    forall s | s == step && s > 0 :: b == Floored(ts, s)
  }

  /** The start of the `step`-second bucket holding `ts`: its formula is in `BucketIs`, and most proofs
      need only that the bucket holds `ts` and the lemmas below. */
  ghost function Bucket(ts: int, step: int): (b: int)
    requires step > 0
    ensures b <= ts < b + step
  {
    assert IsBucket(ts, step, Floored(ts, step));
    var b :| IsBucket(ts, step, b);
    assert b == Floored(ts, step);
    b
  }

  lemma BucketIs(ts: int, step: int)
    requires step > 0
    ensures Bucket(ts, step) == Floored(ts, step)
  {
    assert IsBucket(ts, step, Bucket(ts, step));
  }

  method BucketOf(ts: int, step: int) returns (b: int)
    requires step > 0
    ensures b == Bucket(ts, step)
  {
    b := ts / step * step;
    BucketIs(ts, step);
  }

  /** Bucket starts are fixed points: a bucket start is the bucket of itself. */
  ghost predicate Aligned(start: int, step: int)
    requires step > 0
  {
    Bucket(start, step) == start
  }

  lemma BucketAligned(ts: int, step: int)
    requires step > 0
    ensures Aligned(Bucket(ts, step), step)
  {
    MultipleAligned(ts / step, step);
    BucketIs(ts, step);
  }

  /** The aligned times are the multiples of the step. */
  lemma MultipleAligned(k: int, step: int)
    requires step > 0
    ensures Aligned(k * step, step)
  {
    BucketIs(k * step, step);
    DivMul(k, step);
  }

  lemma DivMul(k: int, step: int)
    requires step > 0
    ensures (k * step) / step == k
  {
    var q := (k * step) / step;
    var r := (k * step) % step;
    assert k * step == q * step + r;
    assert (k - q) * step == r;
    if k - q >= 1 {
      MulMono(1, k - q, step);
    } else if k - q <= -1 {
      MulMono(k - q, -1, step);
    }
  }

  lemma MulMono(a: int, b: int, c: int)
    requires a <= b && c >= 0
    ensures a * c <= b * c
  {
    assert (b - a) * c >= 0;
  }

  /** Two different bucket starts are at least one bucket apart. */
  lemma AlignedApart(x: int, y: int, step: int)
    requires step > 0 && Aligned(x, step) && Aligned(y, step) && x < y
    ensures x + step <= y
  {
    BucketIs(x, step);
    BucketIs(y, step);
    MultiplesApart(x / step, y / step, step);
  }

  lemma MultiplesApart(i: int, j: int, step: int)
    requires step > 0 && i * step < j * step
    ensures i * step + step <= j * step
  {
    if j <= i {
      MulMono(j, i, step);
    } else {
      MulMono(i + 1, j, step);
      assert (i + 1) * step == i * step + step;
    }
  }

  /** Buckets are monotone in time. */
  lemma BucketMono(s: int, t: int, step: int)
    requires step > 0 && s <= t
    ensures Bucket(s, step) <= Bucket(t, step)
  {
    BucketAligned(s, step);
    BucketAligned(t, step);
    if Bucket(t, step) < Bucket(s, step) {
      AlignedApart(Bucket(t, step), Bucket(s, step), step);
    }
  }

  /** A time inside an aligned bucket belongs to it. */
  lemma BucketUnique(ts: int, start: int, step: int)
    requires step > 0 && Aligned(start, step) && start <= ts < start + step
    ensures Bucket(ts, step) == start
  {
    BucketAligned(ts, step);
    var b := Bucket(ts, step);
    if b < start {
      AlignedApart(b, start, step);
    } else if start < b {
      AlignedApart(start, b, step);
    }
  }

  /** Coarser bucket starts are finer ones too. */
  lemma CoarseIsFine(ts: int, m: int, k: int)
    requires m > 0 && k > 0 && m * k > 0
    ensures Aligned(Bucket(ts, m * k), m)
  {
    var n := m * k;
    BucketIs(ts, n);
    var q := ts / n;
    assert q * n == q * (k * m);
    MulAssoc(q, k, m);
    MultipleAligned(q * k, m);
  }

  /** Coarser buckets are unions of finer ones. */
  lemma BucketNest(ts: int, m: int, k: int)
    requires m > 0 && k > 0 && m * k > 0
    ensures Bucket(Bucket(ts, m), m * k) == Bucket(ts, m * k)
  {
    var b, f := Bucket(ts, m * k), Bucket(ts, m);
    BucketAligned(ts, m * k);
    BucketAligned(ts, m);
    CoarseIsFine(ts, m, k);
    if f < b {
      AlignedApart(f, b, m);
    }
    BucketUnique(f, b, m * k);
  }

  lemma MulAssoc(a: int, b: int, c: int)
    ensures a * (b * c) == (a * b) * c
  {
  }
}
