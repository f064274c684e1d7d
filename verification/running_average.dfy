/**
  The smoothing filter of an analog control: a fixed-length ring buffer of
  the most recent samples with a running sum, a write index and a ramp-up
  count (the fields avValues, avLen, avSum, avIndex and avCount of the
  Analog class).

  The buffer is a sequence; `len == 0` means that averaging is disabled,
  exactly as `if (avLen)` decides it in Analog::refresh.
 */
module RunningAverage {

  /** Sum of a sequence of samples. */
  function Sum(s: seq<nat>): nat
  {
    if |s| == 0 then 0 else s[0] + Sum(s[1..])
  }

  /** A zero-filled buffer, as memset leaves it. */
  function Zeros(n: nat): (z: seq<nat>)
    ensures |z| == n
    ensures forall i :: 0 <= i < n ==> z[i] == 0
  {
    seq(n, _ => 0)
  }

  function Min(a: nat, b: nat): nat
  {
    if a <= b then a else b
  }

  /** The sliding window: the last min(|h|, len) entries of the history h. */
  function Window(h: seq<nat>, len: nat): (w: seq<nat>)
    ensures |w| == Min(|h|, len)
  {
    if |h| <= len then h else h[|h| - len..]
  }

  /** Integer-division mean of a non-empty window. */
  function Mean(w: seq<nat>): nat
    requires |w| > 0
  {
    Sum(w) / |w|
  }

  /** The buffer read from the write index onwards: oldest sample first. */
  function Rotate(v: seq<nat>, i: nat): seq<nat>
    requires i <= |v|
  {
    v[i..] + v[..i]
  }

  datatype Filter = Filter(len: nat, values: seq<nat>, sum: nat, index: nat, count: nat)

  /** Averaging is on once a buffer length has been configured. */
  predicate Enabled(f: Filter)
  {
    f.len != 0
  }

  /**
    The ring invariant: the running sum is the sum of the buffer, the index
    is inside the buffer, the count never exceeds the length, and a buffer,
    once present, has at least two entries.
   */
  predicate Valid(f: Filter)
  {
    && |f.values| == f.len
    && f.len != 1
    && f.sum == Sum(f.values)
    && f.count <= f.len
    && (if f.len == 0 then f.index == 0 && f.count == 0 else f.index < f.len)
  }

  /** The filter state of a freshly constructed control: no buffer, all zero. */
  function Disabled(): (f: Filter)
    ensures Valid(f) && !Enabled(f)
    ensures f.sum == 0 && f.count == 0
  {
    Filter(0, [], 0, 0, 0)
  }

  /**
    Analog::average(length): ignored when the length is 0 or 1 or when a
    buffer already exists; otherwise allocates a zeroed buffer of `length`
    entries. The sum, index and count are left as they are, which on a
    valid disabled filter means all zero.
   */
  function Configure(f: Filter, length: nat): (r: Filter)
    requires Valid(f)
    ensures Valid(r)
    ensures length <= 1 || Enabled(f) ==> r == f
    ensures length >= 2 && !Enabled(f) ==>
              && r.len == length && r.values == Zeros(length)
              && r.sum == 0 && r.index == 0 && r.count == 0
  {
    if length == 0 || length == 1 || f.len != 0 then f
    else
      SumZeros(length);
      Filter(length, Zeros(length), f.sum, f.index, f.count)
  }

  /** `(i + 1) % n`: the next index of a ring of n entries. */
  function Advance(i: nat, n: nat): (j: nat)
    requires i < n
    ensures j == if i + 1 == n then 0 else i + 1
  {
    (i + 1) % n
  }

  /** Unsigned integer division `a / b`. */
  function Quotient(a: nat, b: nat): (q: nat)
    requires b > 0
    ensures IsFloorMean(q, a, b)
  {
    DivBounds(a, b);
    a / b
  }

  /** Result of one running-average step: the new filter and the average it returns. */
  datatype Pushed = Pushed(filter: Filter, average: nat)

  /**
    Analog::runningAverage(value): evict the sample at the write index from
    the sum, store the new one, advance the index modulo the length, count
    up to the length, and return sum / count. The subtraction never goes
    below zero and the divisor is at least one.
   */
  function Push(f: Filter, x: nat): (r: Pushed)
    requires Valid(f) && Enabled(f)
    ensures Valid(r.filter) && Enabled(r.filter)
    ensures r.filter.len == f.len
    ensures r.filter.values == f.values[f.index := x]
    ensures r.filter.index == if f.index + 1 == f.len then 0 else f.index + 1
    ensures r.filter.count == Min(f.count + 1, f.len)
    ensures IsFloorMean(r.average, r.filter.sum, r.filter.count)
  {
    var evicted := f.values[f.index];
    ElementAtMostSum(f.values, f.index);
    SumUpdate(f.values, f.index, x);
    var sum: nat := f.sum - evicted + x;
    var index := Advance(f.index, f.len);
    var count: nat := if f.count < f.len then f.count + 1 else f.count;
    Pushed(Filter(f.len, f.values[f.index := x], sum, index, count), Quotient(sum, count))
  }

  /**
    The filter follows the history h of every value pushed into it: read
    oldest-first from the write index, the buffer holds the zeros not yet
    overwritten followed by the sliding window of h.
   */
  ghost predicate Tracks(f: Filter, h: seq<nat>)
  {
    && Valid(f) && Enabled(f)
    && f.count == Min(|h|, f.len)
    && Rotate(f.values, f.index) == Zeros(f.len - f.count) + Window(h, f.len)
  }

  // ---------------------------------------------------------------------
  // Arithmetic and sequence facts
  // ---------------------------------------------------------------------

  /** q is the integer quotient of s by c: the largest q with q * c <= s. */
  predicate IsFloorMean(q: nat, s: nat, c: nat)
  {
    q * c <= s < (q + 1) * c
  }

  lemma {:induction false} DivBounds(a: nat, b: nat)
    requires b > 0
    ensures IsFloorMean(a / b, a, b)
  {
    var q := a / b;
    assert a == q * b + a % b;
    assert (q + 1) * b == q * b + b;
  }

  lemma {:induction false} MulMonotone(a: nat, b: nat, n: nat)
    requires a <= b
    ensures a * n <= b * n
  {
    if n > 0 {
      MulMonotone(a, b, n - 1);
      assert a * n == a * (n - 1) + a;
      assert b * n == b * (n - 1) + b;
    }
  }

  lemma {:induction false} SumConcat(a: seq<nat>, b: seq<nat>)
    ensures Sum(a + b) == Sum(a) + Sum(b)
    decreases |a|
  {
    if |a| == 0 {
      assert a + b == b;
    } else {
      assert (a + b)[1..] == a[1..] + b;
      SumConcat(a[1..], b);
    }
  }

  /** Sequence concatenation is associative; kept apart so that larger proofs stay small. */
  lemma ConcatAssoc(a: seq<nat>, b: seq<nat>, c: seq<nat>)
    ensures (a + b) + c == a + (b + c)
  {
  }

  lemma {:induction false} SumZeros(n: nat)
    ensures Sum(Zeros(n)) == 0
  {
    if n > 0 {
      assert Zeros(n)[1..] == Zeros(n - 1);
      SumZeros(n - 1);
    }
  }

  lemma {:induction false} ElementAtMostSum(s: seq<nat>, i: nat)
    requires i < |s|
    ensures s[i] <= Sum(s)
    decreases |s|
  {
    if i > 0 {
      ElementAtMostSum(s[1..], i - 1);
    }
  }

  lemma {:induction false} SumUpdate(s: seq<nat>, i: nat, x: nat)
    requires i < |s|
    ensures Sum(s[i := x]) == Sum(s) - s[i] + x
    decreases |s|
  {
    if i > 0 {
      assert s[i := x][1..] == s[1..][i - 1 := x];
      SumUpdate(s[1..], i - 1, x);
    }
  }

  /** Summing is insensitive to where the ring is read from. */
  lemma {:induction false} SumRotate(v: seq<nat>, i: nat)
    requires i <= |v|
    ensures Sum(Rotate(v, i)) == Sum(v)
  {
    SumConcat(v[i..], v[..i]);
    SumConcat(v[..i], v[i..]);
    assert v[..i] + v[i..] == v;
  }

  /** A write at the index followed by an advance shifts the oldest-first view by one. */
  lemma {:induction false} RotatePush(v: seq<nat>, i: nat, x: nat)
    requires i < |v|
    ensures Rotate(v[i := x], (i + 1) % |v|) == Rotate(v, i)[1..] + [x]
  {
    var w := v[i := x];
    assert Rotate(v, i)[1..] == v[i + 1..] + v[..i];
    if i + 1 < |v| {
      assert (i + 1) % |v| == i + 1;
      assert w[i + 1..] == v[i + 1..];
      assert w[..i + 1] == v[..i] + [x];
      assert Rotate(w, i + 1) == v[i + 1..] + (v[..i] + [x]);
    } else {
      assert (i + 1) % |v| == 0;
      assert v[i + 1..] == [];
      assert w == v[..i] + [x];
      assert Rotate(w, 0) == w;
    }
  }

  /** How the sliding window moves when one more value arrives. */
  lemma {:induction false} WindowStep(h: seq<nat>, len: nat, x: nat)
    requires len > 0
    ensures |h| < len ==> Window(h + [x], len) == h + [x]
    ensures |h| >= len ==> Window(h + [x], len) == Window(h, len)[1..] + [x]
  {
    if |h| >= len {
      assert (h + [x])[|h| + 1 - len..] == h[|h| - len..][1..] + [x];
    }
  }

  lemma {:induction false} SumBound(w: seq<nat>, m: nat)
    requires forall i :: 0 <= i < |w| ==> w[i] <= m
    ensures Sum(w) <= |w| * m
    decreases |w|
  {
    if |w| > 0 {
      SumBound(w[1..], m);
    }
  }

  /** The quotient of a sum of bounded samples by their number stays within the bound. */
  lemma {:induction false} MeanBound(w: seq<nat>, m: nat)
    requires |w| > 0
    requires forall i :: 0 <= i < |w| ==> w[i] <= m
    ensures Mean(w) <= m
  {
    var n := |w|;
    var q := Sum(w) / n;
    SumBound(w, m);
    DivBounds(Sum(w), n);
    assert n * m == m * n;
    assert (m + 1) * n == m * n + n;
    if q > m {
      MulMonotone(m + 1, q, n);
      assert false;
    }
  }

  // ---------------------------------------------------------------------
  // The sliding-window mean
  // ---------------------------------------------------------------------

  /** Configuring averaging on a fresh control starts tracking an empty history. */
  lemma {:induction false} ConfigureTracks(f: Filter, length: nat)
    requires Valid(f) && !Enabled(f)
    requires length >= 2
    ensures Tracks(Configure(f, length), [])
  {
    var r := Configure(f, length);
    assert Rotate(r.values, 0) == r.values;
  }

  /** On a tracking filter the running sum is the sum of the sliding window. */
  lemma {:induction false} TracksSum(f: Filter, h: seq<nat>)
    requires Tracks(f, h)
    ensures f.sum == Sum(Window(h, f.len))
  {
    SumRotate(f.values, f.index);
    SumConcat(Zeros(f.len - f.count), Window(h, f.len));
    SumZeros(f.len - f.count);
  }

  /**
    One running-average step keeps the filter tracking the history extended
    by the new value, and returns the integer mean of the last
    min(n, len) values: during ramp-up the mean divides by the number of
    values seen, afterwards by the buffer length.
   */
  lemma {:induction false} PushTracks(f: Filter, h: seq<nat>, x: nat)
    requires Tracks(f, h)
    ensures Tracks(Push(f, x).filter, h + [x])
    ensures Push(f, x).average == Mean(Window(h + [x], f.len))
  {
    var p := Push(f, x);
    var r := p.filter;
    var L := f.len;
    RotatePush(f.values, f.index, x);
    ShiftWindow(h, L, f.count, x);
    assert Rotate(r.values, r.index) == Zeros(L - r.count) + Window(h + [x], L);
    TracksSum(r, h + [x]);
  }

  /** Dropping the oldest entry and appending x moves the padded window one step. */
  lemma {:induction false} ShiftWindow(h: seq<nat>, len: nat, count: nat, x: nat)
    requires 0 < len && count == Min(|h|, len)
    ensures (Zeros(len - count) + Window(h, len))[1..] + [x]
            == Zeros(len - Min(count + 1, len)) + Window(h + [x], len)
  {
    WindowStep(h, len, x);
    var z := Zeros(len - count);
    var w := Window(h, len);
    if count < len {
      assert z[1..] == Zeros(len - (count + 1));
      assert (z + w)[1..] == z[1..] + w;
    } else {
      assert z + w == w;
    }
  }

  /** Every entry of a window of bounded values is bounded. */
  lemma {:induction false} WindowBounded(h: seq<nat>, len: nat, m: nat)
    requires forall i :: 0 <= i < |h| ==> h[i] <= m
    ensures forall i :: 0 <= i < |Window(h, len)| ==> Window(h, len)[i] <= m
  {
    var w := Window(h, len);
    assert w == h[|h| - |w|..];
    forall i | 0 <= i < |w|
      ensures w[i] <= m
    {
      assert w[i] == h[|h| - |w| + i];
    }
  }

  /** With every pushed value at most m, the average returned is at most m. */
  lemma {:induction false} PushBounded(f: Filter, h: seq<nat>, x: nat, m: nat)
    requires Tracks(f, h)
    requires forall i :: 0 <= i < |h| ==> h[i] <= m
    requires x <= m
    ensures Push(f, x).average <= m
  {
    PushTracks(f, h, x);
    var h' := h + [x];
    assert forall i :: 0 <= i < |h'| ==> h'[i] <= m;
    WindowBounded(h', f.len, m);
    MeanBound(Window(h', f.len), m);
  }

  /** PushTracks for the next value of a sequence being fed in order. */
  lemma {:induction false} PushPrefix(f: Filter, xs: seq<nat>, i: nat)
    requires i < |xs| && Tracks(f, xs[..i])
    ensures Tracks(Push(f, xs[i]).filter, xs[..i + 1])
    ensures Push(f, xs[i]).filter.len == f.len
    ensures Push(f, xs[i]).average == Mean(Window(xs[..i + 1], f.len))
  {
    assert xs[..i] + [xs[i]] == xs[..i + 1];
    PushTracks(f, xs[..i], xs[i]);
  }

  /** means[k] is the sliding-window mean after the first k + 1 values of xs. */
  ghost predicate AreMeans(means: seq<nat>, xs: seq<nat>, length: nat)
  {
    && |means| <= |xs|
    && length > 0
    && forall k :: 0 <= k < |means| ==> means[k] == Mean(Window(xs[..k + 1], length))
  }

  lemma {:induction false} AreMeansAppend(means: seq<nat>, xs: seq<nat>, length: nat, m: nat)
    requires AreMeans(means, xs, length) && |means| < |xs|
    requires m == Mean(Window(xs[..|means| + 1], length))
    ensures AreMeans(means + [m], xs, length)
  {
    var ms := means + [m];
    forall k | 0 <= k < |ms|
      ensures ms[k] == Mean(Window(xs[..k + 1], length))
    {
      if k < |means| {
        assert ms[k] == means[k];
      }
    }
  }

  /**
    Feeds the values xs one by one into a filter of length `length`, as
    successive calls of Analog::runningAverage would, and collects what
    each call returns: the i-th result is the mean of the last
    min(i + 1, length) values.
   */
  method RunningMeans(length: nat, xs: seq<nat>) returns (means: seq<nat>)
    requires length >= 2
    ensures |means| == |xs|
    ensures forall i :: 0 <= i < |xs| ==> means[i] == Mean(Window(xs[..i + 1], length))
  {
    var f := Configure(Disabled(), length);
    ConfigureTracks(Disabled(), length);
    means := [];
    var i := 0;
    while i < |xs|
      invariant 0 <= i <= |xs|
      invariant f.len == length
      invariant Tracks(f, xs[..i])
      invariant |means| == i
      invariant AreMeans(means, xs, length)
    {
      PushPrefix(f, xs, i);
      var p := Push(f, xs[i]);
      AreMeansAppend(means, xs, length, p.average);
      f := p.filter;
      means := means + [p.average];
      i := i + 1;
    }
  }
}
