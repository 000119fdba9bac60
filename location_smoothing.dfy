/** The GPS smoothing of the AR location manager: raw fixes pass an accuracy
    gate, admitted fixes go into a bounded first-in-first-out buffer, and the
    position handed to the sensors is the accuracy-weighted mean of the
    buffer. Single-precision floats are modelled as exact reals. */
module LocationSmoothing {

  datatype Option<T> = None | Some(value: T)

  /** A raw fix as the device reports it. */
  datatype LocationInfo = LocationInfo(latitude: real, longitude: real, horizontalAccuracy: real)

  /** An admitted fix as stored in the smoothing buffer. */
  datatype LocationData = LocationData(latitude: real, longitude: real, accuracy: real, timestamp: real)

  /** The position handed to the sensors. */
  datatype SmoothedLocation = SmoothedLocation(latitude: real, longitude: real, accuracy: real)

  /** Status of the device's location service. */
  datatype LocationServiceStatus = Stopped | Initializing | Running | Failed

  /** The on-screen debug text, without its number formatting. */
  datatype DebugText =
    | NoText
    | PoorAccuracy(accuracy: real)           // "Poor GPS accuracy: ...m / Waiting for better signal..."
    | Tracking(location: SmoothedLocation)   // "Location: lat, lon / Accuracy: ...m"

  /** The two coordinates averaged the same way. */
  datatype Axis = Latitude | Longitude

  function Coord(d: LocationData, axis: Axis): real
  {
    match axis
    case Latitude => d.latitude
    case Longitude => d.longitude
  }

  // ---------------------------------------------------------------------------
  // The buffer
  // ---------------------------------------------------------------------------

  /** How many samples a buffer of the given size keeps: a size of zero or
      less keeps none, because every enqueue is followed by a dequeue. */
  function Capacity(size: int): nat
  {
    if size < 0 then 0 else size
  }

  /** `AddToLocationBuffer` on a queue: enqueue, then drop the front if the
      queue is over `size`. */
  function Enqueue(buffer: seq<LocationData>, x: LocationData, size: int): (r: seq<LocationData>)
    ensures |buffer| <= Capacity(size) ==> |r| <= Capacity(size)
    ensures |buffer| <= Capacity(size) && |buffer| < size ==> r == buffer + [x]
    ensures |buffer| == Capacity(size) && size >= 1 ==> r == buffer[1..] + [x]
    ensures size >= 1 ==> |r| >= 1 && r[|r| - 1] == x
  {
    var b := buffer + [x];
    if |b| > size then b[1..] else b
  }

  /** The last (at most) k elements of s. */
  function Suffix<T>(s: seq<T>, k: nat): (r: seq<T>)
    ensures |r| == if |s| < k then |s| else k
    ensures forall i | 0 <= i < |r| :: r[i] == s[|s| - |r| + i]
  {
    if |s| <= k then s else s[|s| - k..]
  }

  /** The buffer after admitting the samples xs in order. */
  function EnqueueAll(buffer: seq<LocationData>, xs: seq<LocationData>, size: int): seq<LocationData>
    decreases |xs|
  {
    if xs == [] then buffer
    else Enqueue(EnqueueAll(buffer, xs[..|xs| - 1], size), xs[|xs| - 1], size)
  }

  /** The count grows by one per admitted sample until it reaches the
      capacity, then stays there. */
  lemma EnqueueCount(buffer: seq<LocationData>, x: LocationData, size: int)
    requires |buffer| <= Capacity(size)
    ensures |Enqueue(buffer, x, size)| == if |buffer| + 1 <= Capacity(size) then |buffer| + 1 else Capacity(size)
  {
  }

  /** Admitting x to a buffer that holds the last `size` elements of w gives
      the last `size` elements of w followed by x. */
  lemma EnqueueOntoSuffix(w: seq<LocationData>, x: LocationData, size: int)
    ensures Enqueue(Suffix(w, Capacity(size)), x, size) == Suffix(w + [x], Capacity(size))
  {

  }

  /** After any sequence of admitted samples, the buffer holds the last
      `size` elements of everything it has seen, oldest first: FIFO order with
      eviction from the front. */
  lemma {:induction false} EnqueueAllIsSuffix(buffer: seq<LocationData>, xs: seq<LocationData>, size: int)
    requires |buffer| <= Capacity(size)
    ensures EnqueueAll(buffer, xs, size) == Suffix(buffer + xs, Capacity(size))
    decreases |xs|
  {
    if xs == [] {
      assert buffer + xs == buffer;
    } else {
      var ys, x := xs[..|xs| - 1], xs[|xs| - 1];
      var prev := EnqueueAll(buffer, ys, size);
      assert EnqueueAll(buffer, xs, size) == Enqueue(prev, x, size);
      EnqueueAllIsSuffix(buffer, ys, size);
      EnqueueOntoSuffix(buffer + ys, x, size);
      assert (buffer + ys) + [x] == buffer + xs by {
        assert xs == ys + [x];
      }
    }
  }

  /** Starting from an empty buffer, after k admitted samples the buffer is
      exactly the last min(k, size) of them. */
  lemma FromEmpty(xs: seq<LocationData>, size: int)
    requires size >= 1
    ensures EnqueueAll([], xs, size) == Suffix(xs, size)
    ensures |EnqueueAll([], xs, size)| == if |xs| < size then |xs| else size
  {
    EnqueueAllIsSuffix([], xs, size);
    assert [] + xs == xs;
  }

  // ---------------------------------------------------------------------------
  // The weighted mean
  // ---------------------------------------------------------------------------

  /** Every sample carries a non-negative accuracy, as the device reports it. */
  predicate NonNegative(s: seq<LocationData>)
  {
    forall i | 0 <= i < |s| :: s[i].accuracy >= 0.0
  }

  /** Every sample passed the admission gate. */
  predicate WithinThreshold(s: seq<LocationData>, threshold: real)
  {
    forall i | 0 <= i < |s| :: s[i].accuracy <= threshold
  }

  /** The confidence weight of one sample, `1 / (accuracy + 1)`. */
  function Weight(accuracy: real): (w: real)
    requires accuracy >= 0.0
    ensures 0.0 < w <= 1.0
  {
    1.0 / (accuracy + 1.0)
  }

  /** A smaller accuracy value (a better fix) gets a strictly larger weight. */
  lemma WeightDecreasing(a: real, b: real)
    requires 0.0 <= a < b
    ensures Weight(a) > Weight(b)
  {
    RecipDecreasing(a + 1.0, b + 1.0);
  }

  lemma RecipDecreasing(x: real, y: real)
    requires 0.0 < x < y
    ensures 1.0 / x > 1.0 / y
  {

  }

  /** The sum of the weights of the samples, accumulated front to back. */
  function WeightSum(s: seq<LocationData>): (r: real)
    requires NonNegative(s)
    ensures r >= 0.0
    ensures s != [] ==> r > 0.0
    decreases |s|
  {
    if s == [] then 0.0
    else WeightSum(s[..|s| - 1]) + Weight(s[|s| - 1].accuracy)
  }

  /** The weighted sum of one coordinate of the samples. */
  function WeightedSum(s: seq<LocationData>, axis: Axis): real
    requires NonNegative(s)
    decreases |s|
  {
    if s == [] then 0.0
    else WeightedSum(s[..|s| - 1], axis) + Coord(s[|s| - 1], axis) * Weight(s[|s| - 1].accuracy)
  }

  /** The plain sum of the accuracies of the samples. */
  function AccuracySum(s: seq<LocationData>): real
    decreases |s|
  {
    if s == [] then 0.0
    else AccuracySum(s[..|s| - 1]) + s[|s| - 1].accuracy
  }

  /** The accuracy-weighted mean of one coordinate. */
  function WeightedMean(s: seq<LocationData>, axis: Axis): real
    requires NonNegative(s) && s != []
  {
    WeightedSum(s, axis) / WeightSum(s)
  }

  /** What `GetSmoothedLocation` returns: for an empty buffer the last raw
      fix, otherwise the weighted means of the coordinates and the unweighted
      mean of the accuracies. */
  function Smoothed(buffer: seq<LocationData>, lastLocation: LocationInfo): (r: SmoothedLocation)
    requires NonNegative(buffer)
    ensures |buffer| == 0 ==>
      r == SmoothedLocation(lastLocation.latitude, lastLocation.longitude, lastLocation.horizontalAccuracy)
    ensures |buffer| > 0 ==> r.accuracy >= 0.0
  {
    if |buffer| == 0 then
      SmoothedLocation(lastLocation.latitude, lastLocation.longitude, lastLocation.horizontalAccuracy)
    else
      AccuracySumNonNegative(buffer);
      SmoothedLocation(WeightedMean(buffer, Latitude), WeightedMean(buffer, Longitude),
                       AccuracySum(buffer) / |buffer| as real)
  }

  /** The accuracies of fixes with non-negative accuracy sum to a
      non-negative total. */
  lemma {:induction false} AccuracySumNonNegative(s: seq<LocationData>)
    requires NonNegative(s)
    ensures AccuracySum(s) >= 0.0
    decreases |s|
  {
    if s != [] {
      AccuracySumNonNegative(s[..|s| - 1]);
    }
  }

  /** The weights of the samples, in buffer order. */
  function Weights(s: seq<LocationData>): (ws: seq<real>)
    requires NonNegative(s)
    ensures |ws| == |s|
    ensures forall i | 0 <= i < |s| :: ws[i] == Weight(s[i].accuracy)
    decreases |s|
  {
    if s == [] then [] else Weights(s[..|s| - 1]) + [Weight(s[|s| - 1].accuracy)]
  }

  /** One coordinate of the samples, in buffer order. */
  function Coords(s: seq<LocationData>, axis: Axis): (xs: seq<real>)
    ensures |xs| == |s|
    ensures forall i | 0 <= i < |s| :: xs[i] == Coord(s[i], axis)
    decreases |s|
  {
    if s == [] then [] else Coords(s[..|s| - 1], axis) + [Coord(s[|s| - 1], axis)]
  }

  /** The sum of a sequence of reals, accumulated front to back. */
  function Sum(xs: seq<real>): real
    decreases |xs|
  {
    if xs == [] then 0.0 else Sum(xs[..|xs| - 1]) + xs[|xs| - 1]
  }

  /** The dot product of two sequences of the same length. */
  function Dot(xs: seq<real>, ws: seq<real>): real
    requires |xs| == |ws|
    decreases |xs|
  {
    if xs == [] then 0.0 else Dot(xs[..|xs| - 1], ws[..|ws| - 1]) + xs[|xs| - 1] * ws[|ws| - 1]
  }

  /** The running weight total of the buffer is the plain sum of its weights. */
  lemma {:induction false} WeightSumIsSum(s: seq<LocationData>)
    requires NonNegative(s)
    ensures WeightSum(s) == Sum(Weights(s))
    decreases |s|
  {
    if s != [] {
      var t := s[..|s| - 1];
      WeightSumIsSum(t);
      assert Weights(s)[..|t|] == Weights(t);
    }
  }

  /** The running weighted sum of one coordinate is the dot product of the
      coordinates with the weights. */
  lemma {:induction false} WeightedSumIsDot(s: seq<LocationData>, axis: Axis)
    requires NonNegative(s)
    ensures WeightedSum(s, axis) == Dot(Coords(s, axis), Weights(s))
    decreases |s|
  {
    if s != [] {
      var t := s[..|s| - 1];
      WeightedSumIsDot(t, axis);
      assert Weights(s)[..|t|] == Weights(t);
      assert Coords(s, axis)[..|t|] == Coords(t, axis);
    }
  }

  /** A weighted sum with non-negative weights and every value at least lo is
      at least lo times the total weight. */
  lemma {:induction false} DotLowerBound(xs: seq<real>, ws: seq<real>, lo: real)
    requires |xs| == |ws|
    requires forall i | 0 <= i < |ws| :: ws[i] >= 0.0
    requires forall i | 0 <= i < |xs| :: lo <= xs[i]
    ensures lo * Sum(ws) <= Dot(xs, ws)
    decreases |xs|
  {
    if xs != [] {
      var n := |xs| - 1;
      DotLowerBound(xs[..n], ws[..n], lo);
      LowerStep(lo, Sum(ws[..n]), Dot(xs[..n], ws[..n]), ws[n], xs[n], Sum(ws), Dot(xs, ws));
    }
  }

  /** A weighted sum with non-negative weights and every value at most hi is
      at most hi times the total weight. */
  lemma {:induction false} DotUpperBound(xs: seq<real>, ws: seq<real>, hi: real)
    requires |xs| == |ws|
    requires forall i | 0 <= i < |ws| :: ws[i] >= 0.0
    requires forall i | 0 <= i < |xs| :: xs[i] <= hi
    ensures Dot(xs, ws) <= hi * Sum(ws)
    decreases |xs|
  {
    if xs != [] {
      var n := |xs| - 1;
      DotUpperBound(xs[..n], ws[..n], hi);
      UpperStep(hi, Sum(ws[..n]), Dot(xs[..n], ws[..n]), ws[n], xs[n], Sum(ws), Dot(xs, ws));
    }
  }

  /** Adding one weighted term at or above lo keeps the lower bound. */
  lemma LowerStep(lo: real, total: real, sum: real, w: real, c: real, total': real, sum': real)
    requires lo * total <= sum && lo <= c && w >= 0.0
    requires total' == total + w && sum' == sum + c * w
    ensures lo * total' <= sum'
  {

  }

  /** Adding one weighted term at or below hi keeps the upper bound. */
  lemma UpperStep(hi: real, total: real, sum: real, w: real, c: real, total': real, sum': real)
    requires sum <= hi * total && c <= hi && w >= 0.0
    requires total' == total + w && sum' == sum + c * w
    ensures sum' <= hi * total'
  {

  }

  /** A quotient S / W with W > 0 and lo * W <= S is at least lo. */
  lemma DivAtLeast(sum: real, total: real, lo: real)
    requires total > 0.0 && lo * total <= sum
    ensures lo <= sum / total
  {

  }

  /** A quotient S / W with W > 0 and S <= hi * W is at most hi. */
  lemma DivAtMost(sum: real, total: real, hi: real)
    requires total > 0.0 && sum <= hi * total
    ensures sum / total <= hi
  {

  }

  /** A quotient S / W with W > 0 and lo * W <= S <= hi * W lies in [lo, hi]. */
  lemma DivBounds(sum: real, total: real, lo: real, hi: real)
    requires total > 0.0
    requires lo * total <= sum <= hi * total
    ensures lo <= sum / total <= hi
  {

  }

  /** The smoothed coordinate lies between any bounds of the buffered
      coordinates, so between their minimum and maximum. */
  lemma MeanBetween(s: seq<LocationData>, axis: Axis, lo: real, hi: real)
    requires NonNegative(s) && s != []
    requires forall i | 0 <= i < |s| :: lo <= Coord(s[i], axis) <= hi
    ensures lo <= WeightedMean(s, axis) <= hi
  {
    WeightSumIsSum(s);
    WeightedSumIsDot(s, axis);
    QuotientBetween(Coords(s, axis), Weights(s), lo, hi);
  }

  /** A weighted mean with positive weights lies between any bounds of the
      values. */
  lemma QuotientBetween(xs: seq<real>, ws: seq<real>, lo: real, hi: real)
    requires |xs| == |ws| && ws != []
    requires forall i | 0 <= i < |ws| :: ws[i] > 0.0
    requires forall i | 0 <= i < |xs| :: lo <= xs[i] <= hi
    ensures Sum(ws) > 0.0
    ensures lo <= Dot(xs, ws) / Sum(ws) <= hi
  {
    QuotientAtLeast(xs, ws, lo);
    QuotientAtMost(xs, ws, hi);
  }

  /** The lower half of `QuotientBetween`. */
  lemma QuotientAtLeast(xs: seq<real>, ws: seq<real>, lo: real)
    requires |xs| == |ws| && ws != []
    requires forall i | 0 <= i < |ws| :: ws[i] > 0.0
    requires forall i | 0 <= i < |xs| :: lo <= xs[i]
    ensures Sum(ws) > 0.0
    ensures lo <= Dot(xs, ws) / Sum(ws)
  {
    SumPositive(ws);
    DotLowerBound(xs, ws, lo);
    DivAtLeast(Dot(xs, ws), Sum(ws), lo);
  }

  /** The upper half of `QuotientBetween`. */
  lemma QuotientAtMost(xs: seq<real>, ws: seq<real>, hi: real)
    requires |xs| == |ws| && ws != []
    requires forall i | 0 <= i < |ws| :: ws[i] > 0.0
    requires forall i | 0 <= i < |xs| :: xs[i] <= hi
    ensures Sum(ws) > 0.0
    ensures Dot(xs, ws) / Sum(ws) <= hi
  {
    SumPositive(ws);
    DotUpperBound(xs, ws, hi);
    DivAtMost(Dot(xs, ws), Sum(ws), hi);
  }

  /** A non-empty sum of positive terms is positive. */
  lemma {:induction false} SumPositive(ws: seq<real>)
    requires ws != []
    requires forall i | 0 <= i < |ws| :: ws[i] > 0.0
    ensures Sum(ws) > 0.0
    decreases |ws|
  {
    var n := |ws| - 1;
    if n > 0 {
      SumPositive(ws[..n]);
    } else {
      assert ws[..n] == [];
    }
  }

  /** When every buffered coordinate is the same, that value is returned
      unchanged. */
  lemma MeanOfEqual(s: seq<LocationData>, axis: Axis, c: real)
    requires NonNegative(s) && s != []
    requires forall i | 0 <= i < |s| :: Coord(s[i], axis) == c
    ensures WeightedMean(s, axis) == c
  {
    MeanBetween(s, axis, c, c);
  }

  /** A one-sample buffer smooths to that sample exactly. */
  lemma SingleSample(d: LocationData, lastLocation: LocationInfo)
    requires d.accuracy >= 0.0
    ensures Smoothed([d], lastLocation) == SmoothedLocation(d.latitude, d.longitude, d.accuracy)
  {
    assert [d][..0] == [];
    assert AccuracySum([d]) == d.accuracy;
    MeanOfEqual([d], Latitude, d.latitude);
    MeanOfEqual([d], Longitude, d.longitude);
  }

  /** If every accuracy lies in [lo, hi], their sum lies in [lo * n, hi * n]. */
  lemma {:induction false} AccuracySumBounds(s: seq<LocationData>, lo: real, hi: real)
    requires forall i | 0 <= i < |s| :: lo <= s[i].accuracy <= hi
    ensures lo * |s| as real <= AccuracySum(s) <= hi * |s| as real
    decreases |s|
  {
    if s != [] {
      var t := s[..|s| - 1];
      AccuracySumBounds(t, lo, hi);
      LowerStep(lo, |t| as real, AccuracySum(t), 1.0, s[|t|].accuracy, |s| as real, AccuracySum(s));
      UpperStep(hi, |t| as real, AccuracySum(t), 1.0, s[|t|].accuracy, |s| as real, AccuracySum(s));
    }
  }

  /** The smoothed accuracy, the unweighted mean of the buffered accuracies,
      is non-negative and at most the admission threshold. */
  lemma MeanAccuracyWithinThreshold(s: seq<LocationData>, threshold: real, lastLocation: LocationInfo)
    requires NonNegative(s) && WithinThreshold(s, threshold) && s != []
    ensures 0.0 <= Smoothed(s, lastLocation).accuracy <= threshold
  {
    AccuracySumBounds(s, 0.0, threshold);
    DivBounds(AccuracySum(s), |s| as real, 0.0, threshold);
  }

  /** With two samples of different coordinate and different accuracy, the
      smoothed coordinate is strictly closer to the sample with the smaller
      accuracy value, whichever of the two was admitted first. */
  lemma TwoSamplesFavourBetterFix(a: LocationData, b: LocationData, axis: Axis)
    requires a.accuracy >= 0.0 && b.accuracy >= 0.0 && a.accuracy != b.accuracy
    requires Coord(a, axis) != Coord(b, axis)
    ensures var m := WeightedMean([a, b], axis);
            && (a.accuracy < b.accuracy ==> Abs(m - Coord(a, axis)) < Abs(m - Coord(b, axis)))
            && (b.accuracy < a.accuracy ==> Abs(m - Coord(b, axis)) < Abs(m - Coord(a, axis)))
  {
    TwoSampleSums(a, b, axis);
    if a.accuracy < b.accuracy {
      WeightDecreasing(a.accuracy, b.accuracy);
      MeanOfTwo(Coord(a, axis), Coord(b, axis), Weight(a.accuracy), Weight(b.accuracy),
                WeightedSum([a, b], axis), WeightSum([a, b]));
    } else {
      WeightDecreasing(b.accuracy, a.accuracy);
      MeanOfTwo(Coord(b, axis), Coord(a, axis), Weight(b.accuracy), Weight(a.accuracy),
                WeightedSum([a, b], axis), WeightSum([a, b]));
    }
  }

  /** The sums over a two-sample buffer, written out. */
  lemma TwoSampleSums(a: LocationData, b: LocationData, axis: Axis)
    requires a.accuracy >= 0.0 && b.accuracy >= 0.0
    ensures WeightSum([a, b]) == Weight(a.accuracy) + Weight(b.accuracy)
    ensures WeightedSum([a, b], axis) == Coord(a, axis) * Weight(a.accuracy) + Coord(b, axis) * Weight(b.accuracy)
  {
    assert [a, b][..1] == [a] && [a][..0] == [];
    assert WeightSum([a]) == Weight(a.accuracy);
    assert WeightedSum([a], axis) == Coord(a, axis) * Weight(a.accuracy);
  }

  /** The weighted mean of two distinct values is strictly closer to the one
      with the larger weight. */
  lemma MeanOfTwo(xa: real, xb: real, wa: real, wb: real, sum: real, total: real)
    requires wa > wb > 0.0 && xa != xb
    requires sum == xa * wa + xb * wb && total == wa + wb
    ensures Abs(sum / total - xa) < Abs(sum / total - xb)
  {
    var m := sum / total;
    assert m * total == sum;
    assert (m - xa) * total == wb * (xb - xa);
    assert (xb - m) * total == wa * (xb - xa);
    CloserToHeavier(m - xa, xb - m, xb - xa, wa, wb, total);
  }

  /** If u * T == wb * d and v * T == wa * d with T > 0, d != 0 and wa > wb > 0,
      then |u| < |v|. */
  lemma CloserToHeavier(u: real, v: real, d: real, wa: real, wb: real, total: real)
    requires total > 0.0 && d != 0.0 && wa > wb > 0.0
    requires u * total == wb * d && v * total == wa * d
    ensures Abs(u) < Abs(v)
  {

  }

  function Abs(x: real): real { if x < 0.0 then -x else x }

  // ---------------------------------------------------------------------------
  // The component
  // ---------------------------------------------------------------------------

  /** The location manager's smoothing state and configuration. */
  class ARLocationManager {
    const minAccuracyThreshold: real
    const locationSmoothingBufferSize: int
    const showDebugInfo: bool
    var lastLocation: LocationInfo
    var locationBuffer: seq<LocationData>
    var debugText: DebugText

    /** The buffer respects its capacity and holds only fixes that passed
        the gate. */
    ghost predicate Valid()
      reads this
    {
      && |locationBuffer| <= Capacity(locationSmoothingBufferSize)
      && NonNegative(locationBuffer)
      && WithinThreshold(locationBuffer, minAccuracyThreshold)
    }

    /** `Awake`: an empty buffer; `lastLocation` holds the all-zero default. */
    constructor (threshold: real, bufferSize: int, showDebug: bool)
      ensures Valid()
      ensures minAccuracyThreshold == threshold && locationSmoothingBufferSize == bufferSize
      ensures showDebugInfo == showDebug
      ensures locationBuffer == [] && lastLocation == LocationInfo(0.0, 0.0, 0.0) && debugText == NoText
    {
      minAccuracyThreshold := threshold;
      locationSmoothingBufferSize := bufferSize;
      showDebugInfo := showDebug;
      lastLocation := LocationInfo(0.0, 0.0, 0.0);
      locationBuffer := [];
      debugText := NoText;
    }

    /** Enqueue an admitted fix and drop the oldest one if over capacity. */
    method AddToLocationBuffer(location: LocationData)
      requires Valid()
      requires location.accuracy >= 0.0 && location.accuracy <= minAccuracyThreshold
      modifies this
      ensures Valid()
      ensures locationBuffer == Enqueue(old(locationBuffer), location, locationSmoothingBufferSize)
      ensures lastLocation == old(lastLocation) && debugText == old(debugText)
    {
      locationBuffer := locationBuffer + [location];
      if |locationBuffer| > locationSmoothingBufferSize {
        locationBuffer := locationBuffer[1..];
      }
    }

    /** The smoothed position: one pass over the buffer accumulating the
        weighted coordinate sums, the accuracy sum and the weight sum. */
    method GetSmoothedLocation() returns (r: SmoothedLocation)
      requires Valid()
      ensures r == Smoothed(locationBuffer, lastLocation)
      ensures locationBuffer != [] ==> 0.0 <= r.accuracy <= minAccuracyThreshold
    {
      if |locationBuffer| == 0 {
        return SmoothedLocation(lastLocation.latitude, lastLocation.longitude,
                                lastLocation.horizontalAccuracy);
      }

      var sumLat, sumLon, sumAcc := 0.0, 0.0, 0.0;
      var weightSum := 0.0;

      for i := 0 to |locationBuffer|
        invariant NonNegative(locationBuffer[..i])
        invariant sumLat == WeightedSum(locationBuffer[..i], Latitude)
        invariant sumLon == WeightedSum(locationBuffer[..i], Longitude)
        invariant sumAcc == AccuracySum(locationBuffer[..i])
        invariant weightSum == WeightSum(locationBuffer[..i])
      {
        var loc := locationBuffer[i];
        assert locationBuffer[..i + 1][..i] == locationBuffer[..i];
        var weight := 1.0 / (loc.accuracy + 1.0);
        sumLat := sumLat + loc.latitude * weight;
        sumLon := sumLon + loc.longitude * weight;
        sumAcc := sumAcc + loc.accuracy;
        weightSum := weightSum + weight;
      }
      assert locationBuffer[..|locationBuffer|] == locationBuffer;

      r := SmoothedLocation(sumLat / weightSum, sumLon / weightSum,
                            sumAcc / |locationBuffer| as real);
      MeanAccuracyWithinThreshold(locationBuffer, minAccuracyThreshold, lastLocation);
    }

    /** One pass of the `UpdateSensorPositions` loop with the device's
        current status and fix; returns the position handed to the sensors,
        if any. */
    method UpdateSensorPositionsStep(status: LocationServiceStatus, newLocation: LocationInfo, time: real)
      returns (smoothed: Option<SmoothedLocation>)
      requires Valid()
      requires newLocation.horizontalAccuracy >= 0.0
      modifies this
      ensures Valid()
      ensures status != Running ==>
        && smoothed == None
        && locationBuffer == old(locationBuffer) && lastLocation == old(lastLocation)
        && debugText == old(debugText)
      ensures status == Running && newLocation.horizontalAccuracy > minAccuracyThreshold ==>
        && smoothed == None
        && locationBuffer == old(locationBuffer) && lastLocation == old(lastLocation)
        && debugText == PoorAccuracy(newLocation.horizontalAccuracy)
      ensures status == Running && newLocation.horizontalAccuracy <= minAccuracyThreshold ==>
        && locationBuffer == Enqueue(old(locationBuffer),
                                     LocationData(newLocation.latitude, newLocation.longitude,
                                                  newLocation.horizontalAccuracy, time),
                                     locationSmoothingBufferSize)
        && smoothed == Some(Smoothed(locationBuffer, old(lastLocation)))
        && lastLocation == newLocation
        && debugText == (if showDebugInfo then Tracking(smoothed.value) else old(debugText))
    {
      smoothed := None;
      if status == Running {
        if newLocation.horizontalAccuracy <= minAccuracyThreshold {
          var locationData := LocationData(newLocation.latitude, newLocation.longitude,
                                           newLocation.horizontalAccuracy, time);
          AddToLocationBuffer(locationData);
          var smoothedLocation := GetSmoothedLocation();
          lastLocation := newLocation;
          if showDebugInfo {
            debugText := Tracking(smoothedLocation);
          }
          smoothed := Some(smoothedLocation);
        } else {
          debugText := PoorAccuracy(newLocation.horizontalAccuracy);
        }
      }
    }
  }

  /** With a buffer size of at least one, the fix computed right after an
      admitted sample always comes from the buffer, never from the previous
      raw fix; it is bounded by the buffered coordinates and its accuracy is
      within the gate. */
  lemma AdmittedFixComesFromBuffer(buffer: seq<LocationData>, x: LocationData, size: int,
                                   threshold: real, lastLocation: LocationInfo)
    requires size >= 1 && |buffer| <= size
    requires NonNegative(buffer) && WithinThreshold(buffer, threshold)
    requires 0.0 <= x.accuracy <= threshold
    ensures var b := Enqueue(buffer, x, size);
            && NonNegative(b) && b != [] && b[|b| - 1] == x
            && Smoothed(b, lastLocation).latitude == WeightedMean(b, Latitude)
            && Smoothed(b, lastLocation).longitude == WeightedMean(b, Longitude)
            && 0.0 <= Smoothed(b, lastLocation).accuracy <= threshold
  {
    var b := Enqueue(buffer, x, size);
    assert forall i | 0 <= i < |b| :: b[i] == x || b[i] in buffer;
    MeanAccuracyWithinThreshold(b, threshold, lastLocation);
  }

  /** With a buffer size of zero or less the buffer stays empty, so the
      "smoothed" fix is the previous raw fix, not the one just admitted. */
  lemma ZeroSizeReturnsPreviousFix(x: LocationData, size: int, lastLocation: LocationInfo)
    requires size <= 0
    ensures Enqueue([], x, size) == []
    ensures Smoothed(Enqueue([], x, size), lastLocation)
            == SmoothedLocation(lastLocation.latitude, lastLocation.longitude, lastLocation.horizontalAccuracy)
  {
  }
}
